# SnapHeater U1: a verified model

SnapHeater U1 is firmware for a mains-powered chamber heater, with an Android companion. This project models its
control and storage protocols in Dafny and proves what they guarantee.

The model has three layers.

- Value-level specifications of each step: `SafetyLatch`, `FanTriac`, `SensorWatch`, `ControlLease`, `Jobs`,
  `ControlPlane` and `ControlTick`, then `Recorder`, `HistoryProtocol`, `TemperatureHistory`, `SymbiontEngine`,
  `WsMessageBuffer`, `OtaUpload`, `StopPriorityGate`, `PhysicalControls` and `Ntc`.
- The same steps in the form the firmware and the app have them, as classes whose methods update their fields in
  place. Each method is proved equal to its specification. `ControlTask.Supervisor.ControlPass` is the whole body of the
  control loop, on top of `Device.Controller`, `SafetyLatch.FaultLatch`, `FanTriac.TriacFan`, `ControlLease.Arbiter`,
  `SensorWatch.FreezeWatch` and `JobControl.JobState`.
- Transition systems over those steps, and theorems over all their runs. `Firmware` interleaves control passes,
  zero-cross interrupts, commands, the storage worker split at every release of the policy guard, maintenance
  reservations, factory reset, fallible flash writes and power loss; the modules named `...Guarantees` state what holds
  in all its runs. `HistorySync` interleaves recordings, ring overwrites, page fetches, late or repeated ingests and
  reboots. `StopPriorityGate` and `SymbiontEngine` have their own event runs. A run is given by its states, each
  following from the one before by its event; `Firmware.StepsExist` shows that every sequence of events has one.

The theorems about the device speak of readings, fields and numbers. `Conditions` and the predicates beside each theorem
write those conditions out, apart from the functions the model computes with, so that they can be read against the
source alone.

How the pieces of the source are read:

- A control pass, a command and each guarded phase of the worker are atomic, because they hold the policy guard. The
  zero-cross interrupt is not excluded by it, so a pass lets arbitrary bursts of edges through before each place where it
  reads the fan.
- A flash write commits, or fails and leaves any subset of its cells written.
- Temperatures are reals with a separate value for "not finite"; every comparison with that value is false.
- The durable settings after a failed save are unknown.
- `raced` in a pass stands for a command that slips in before the commit. The guard is meant to exclude it; the model
  keeps the branch and shows that it inhibits the device.

Two findings are stated as lemmas rather than smoothed over. An emergency stop on a device whose latch is already set
leaves the latch as it is, so it does not cancel a clear that is requested, armed or taken;
`EmergencyGuarantees.EmergencyStopHoldsIffNoClearLives` gives the exact condition. In the STOP gate the generation check
and the start of the body are separate steps, so an operation that has passed its check can still start after a STOP was
admitted; `StopPriorityGate.StopPreemptsIffNoneCleared` gives the exact condition.

## Model

| member | source | states |
|---|---|---|
| HeatGuarantees.PassHeatsIff | main/safety.c:1089-1431 | one control pass leaves the SSR on if and only if: a new readable sample of channels not stuck is below both hard limits and the foldback limit; the marker is written, no latch, inhibit or reservation, watchdog armed, setup gate open, fan gate on with live zero cross; a job is at work and not paused, with a set-point, backed by the printer in AUTO, past its pre-fan phase, and the chamber more than 1 C below the set-point, or below it with the demand on; zero cross not lost and the rise window not flat; and no command in between |
| FirmwareGuarantees.PassEnergisesIff | main/safety.c:1121-1431 | the same for every pass of every run: the SSR is on after it exactly then |
| ColdStart.HeatIsReachable | main/safety.c:1089-1431 | a concrete run from a first power-up with blank flash to an energised SSR: start command, journal marker, two zero-cross edges, two passes |
| TripGuarantees.PassTripsIff | main/safety.c:1295-1368 | a pass on a clear latch ends latched if and only if a command raced its commit, or a channel reads at or above its hard limit, or the sensors are unusable while a job, the session flag or the SSR is on, or a session lost a zero cross it had, or the driven heater of a chamber more than 2 C too cold shows no rise over its window; the latch then holds, and the device reports, the gravest of these reasons, still to be stored |
| TripGuarantees.PassTells | main/safety.c:1246-1431 | what the device reports after a pass that kept its commit: SSR and fan as they are, zero cross as read, and, unless latched, unusable sensors, a printer that does not back the job, or the outcome of the job steps |
| FirmwareGuarantees.TargetFollowsJob | main/safety.c:89-119 | every pass that leaves the latch clear works on the set-point of the job it commits: an active ramp, then keep-warm, then the own field of preheat, dry-out, health test or drying material, else the selected target, and 0 for a mode whose job does not run; each within 0..55 C |
| ClearGuarantees.FinishIsExact | main/safety_latch.c:240-291 | the last phase of a clear unlatches if and only if flash took the clear at the present generation and, on the runtime record, nothing works, the SSR is off, readings are 0..1500 ms old with both statuses good and both finite, each below its hard limit with and without its calibration, and zero cross is there if its loss was the fault |
| ClearGuarantees.CheckIsExact | main/safety_latch.c:264-280 | the first revalidation goes on exactly on the same conditions, and only then is the clear written |
| ClearGuarantees.RetryIff | main/safety_latch.c:155-176 | a pending reason is taken up exactly when it is due: at once, then 2 s apart |
| ClearGuarantees.TripGetsStored | main/safety_latch.c:155-190 | a due trip is in flash with its reason four undisturbed worker steps later |
| ClearGuarantees.ClearIsEarned | main/safety_latch.c:223-297 | over every run: the RAM latch goes from set to clear only in the last phase of the worker, with flash already holding the clear, the device not inhibited, nothing working or scheduled, the SSR off, readings at most 1.5 s old of both sensors, finite and, calibrated or not, below 85 and 105 C, and zero cross present if its loss was the fault; the pass that armed it had been asked to and found a good cold sample and no work; and since then came no deferred trip, inhibit or power loss |
| ClearGuarantees.InhibitLastsTheBoot | main/safety_latch.c:87-96 | an inhibited device stays inhibited and latched until power is lost |
| FirmwareGuarantees.EnergisedIsMarked | main/session_journal.c:13-66 | in every reachable state with the SSR on, flash holds the dirty marker, the fan gate is applied and requested, the runtime mirror agrees and no reservation is held; losing power there boots latched whatever the boot reads return |
| FirmwareGuarantees.ReservationIsExclusive | main/app_state.c:55-95 | the maintenance reservation has at most one holder, is set exactly while it has one, and the SSR is off throughout |
| FirmwareGuarantees.EnergisedByLatestPass | main/heater.c:68-96 | an SSR that is on was left on by the latest control pass and has been on ever since; no command, worker step, interrupt or event in between can energise it |
| FirmwareGuarantees.SeenLatchEndsHeating | main/safety.c:1359-1368 | once a pass has seen the latch, only an external start command can ever energise the SSR again, not passes, worker steps, a successful clear, sensors, printer, interrupts or a reboot |
| ClearGuarantees.TripSurvivesPowerLoss | main/safety_latch.c:155-190 | a latch set by a deferred trip, with persistence not pending and the worker outside its clear window, is in flash with its reason and survives any power loss |
| ClearGuarantees.RetryIsHonest | main/safety_latch.c:155-190 | a retry only ever writes a latch still in force, and clears "pending" only when flash holds the reason now in force |
| EmergencyGuarantees.EmergencyStopHoldsIffNoClearLives | main/safety_latch.c:141-153 | in any run, after an emergency stop on a latched device, some continuation without a power loss or a new clear request, on a clock that runs forward from any time one likes, unlatches it if and only if a clear lives at the stop: taken by the worker at the present generation and not rejected, or armed at that generation or requested, with a worker that can still take it up, on a device not inhibited |
| EmergencyGuarantees.HeldCannotUnlatch | main/safety_latch.c:264-297 | a latched device with no living clear stays latched through every continuation without a power loss or a new clear request |
| EmergencyGuarantees.LivingClearFinishes | main/safety_latch.c:223-297 | from any stopped, latched state with a living clear, however late, there is a run of one cold pass and a few worker steps, on a clock that runs forward, that finishes it |
| EmergencyGuarantees.StoppedClearIsReachable | main/api_server.c:813-817 | a device that boots with a stored latch, is asked to clear it and is then stopped can still unlatch |
| EmergencyGuarantees.EmergencyStopLatches | main/api_server.c:679-686 | an emergency stop latches a device whose latch is clear, leaves a set latch as it is, and stops all work |
| ClearGuarantees.SettledMailIsStored | main/settings_deferred.c:13-53 | with nothing pending in the mailbox, and no factory reset in this boot, the settings store holds exactly the settings deferred last |
| ClearGuarantees.ResetHoldsUntilRestart | main/settings_store.c:370-397 | from the admission of a factory reset to the next power loss the reservation is held, the SSR is off, no work can start and no deferred settings are flushed |
| FirmwareGuarantees.InvariantsHold | main/heater.c:68-103 | after every event sequence from any flash content: SSR on implies journal ready, fan gate applied and no reservation, prepared implies marker 1 in flash, mirror equals pin, applied implies requested; latch, worker and fault cells agree on what may be concluded; the mailbox holds the latest settings |
| FirmwareInvariants.DutyKeepsLatch | main/safety_latch.c:155-190 | every phase of clear and retry keeps flash and RAM consistent with what the worker may later conclude |
| ClearGuarantees.UnlatchIsFinish | main/safety_latch.c:281-291 | short of a power loss, only a committed, unblocked, same-generation worker finish unlatches |
| ClearGuarantees.GenerationTells | main/safety_latch.c:223-230 | while power stays on the generation never falls, and equal generations mean no deferred trip or inhibit in between |
| ClearGuarantees.PendingWasArmed | main/safety_latch.c:232-238 | every clear pending in the latch or taken by the worker was armed by a control pass of this boot at that generation |
| FirmwareGuarantees.EnergisedIsAdmitted | main/safety.c:1121-1431 | whenever the SSR is on, in any run, the latest pass found everything in order and nothing has cut it since: that pass had a new readable sample of channels not stuck, below 85 and 105 C whatever the calibration offset, below the set-point of the job it committed (its own field by ramp, keep-warm and mode) by a degree if the demand was off, the PTC below the foldback limit (by 3 C if foldback had been in force), AUTO backed by fresh printer data or a ramp, a health test past its pre-fan phase, work on and not paused, journal ready, nothing latched, inhibited or reserved, watchdog armed, no fault reported, setup gate open, and the fan running with zero cross at most 100 ms old |
| TickGuarantees.TickMovesLatch | main/safety.c:1341-1368 | a pass trips once, arms a clear or loses the commit; it never clears the latch, and its effect on generation and pending flags is exact |
| TickGuarantees.TickFrame | main/safety.c:1416-1431 | a pass leaves reservation, journal flags and watchdog flag alone and ends with the runtime mirror equal to the SSR pin |
| TickGuarantees.JobsStayQuiet | main/safety.c:1146-1175 | the job logic never turns work on by itself from a state with no work, no schedule and no dry-out |
| TickGuarantees.SawLatchStops | main/safety.c:1359-1368 | a pass that saw the latch ends with the SSR off and every self-starting path stopped |
| TickGuarantees.LocalClaimGranted | main/safety.c:1106-1118 | the local job claim of the control task is never refused, so its refusal branch is dead |
| ZeroCrossGuarantees.LostZeroCrossLatches | main/safety.c:1306-1352 | if a pass leaves a job of any mode at work with a set-point, having found the signal live, then any accepted-edge interval above 100 ms up to the next pass, closed or still open, makes that pass leave the latch set unless its own job steps end the work, for any interleaving of interrupts and even if the signal is back |
| PurgeGuarantees.HeatIsPurged | main/safety.c:1370-1390 | from any instant with the SSR on, airflow stays requested until a pass out of heat mode has a good sample with both chamber and PTC below the limit, or power is lost |
| PurgeGuarantees.PurgeEndsOnEvidence | main/safety.c:1374-1390 | a pass forgets residual heat only on a good sample out of heat mode, and one that commits leaves both statuses good and both readings finite and below the release temperature of 30 to 65 C (3 C more if no purge had begun), with the SSR off |
| PurgeGuarantees.AirflowLasts | main/safety.c:1370-1390 | a device that counts as heated after a pass keeps its airflow request until such a pass or a power loss |
| PurgeGuarantees.BootIsPurged | main/safety.c:1080-1084 | a reboot does not end a purge: from any pass of the new boot on, airflow stays requested until a pass finds both sensors cold or power is lost again |
| PurgeGuarantees.ColdPassEndsPurge | main/safety.c:1374-1390 | a pass out of heat mode with a good sample of both sensors below the limit does end the purge, unless a channel is stuck or a command slips in |
| HazardGuarantees.OvertempLatches | main/safety.c:1213-1222 | a pass that reads either channel at or above its hard limit, calibrated or not, ends latched with the SSR off, whatever the job |
| HazardGuarantees.BadSampleEndsWork | main/safety.c:1246-1364 | a pass without a good sample ends without heat, and latched or without work; latched in any case while the session flag is set and no schedule waits |
| HazardGuarantees.AirflowIff | main/safety.c:1209-1430 | after a pass airflow is requested if and only if the device is latched or purging, in charge of a heating job, or runs a dry-out or a health test |
| HazardGuarantees.ArmIff | main/safety.c:1352-1358 | a pass arms a requested clear exactly when the latch is set without inhibit, no work is on, the sample is good and below both hard limits, and zero cross is live if its loss was the fault |
| HazardGuarantees.PassSettlesOwner | main/safety.c:1104-1118 | the owner after a pass: nobody if latched or with neither work nor schedule, the local job if a remote lease had run out, else the same holder with the same lease |
| ReadingGuarantees.ReadingsAreGenuine | main/safety.c:1121-1144 | whenever the runtime says both sensors are good, its readings and their time are those of a good sample, the one of the latest pass that kept its commit |
| ReadingGuarantees.ReadingTimeIsGenuine | main/safety.c:1121-1144 | the time of the latest readings is always that of a new acquisition of this boot |
| PrintGuarantees.MemoryIsEarned | main/safety.c:1091-1104 | in every run a print that is remembered was seen by a pass of this boot, and every pass since has worked under the same command: a new command starts without a print |
| ScheduleGuarantees.DueScheduleStarts | main/safety.c:541-563 | a due schedule starts its preheat at its own target in the next pass if nothing stands against a start and the local job or the holder of a remote lease owns the device; if not, that pass leaves no job |
| CommandGuarantees.StoredTargetsAreBounded | main/app_state.c:377-399 | in every reachable state every stored target lies within 0..55 C |
| CommandGuarantees.CommandTakesEffect | main/app_state.c:409-417 | a command for work or a schedule is refused exactly while latched, inhibited or reserved; any other stores its bounded settings, a new nonzero epoch and, if deferred, the mailbox, and nothing else |
| CommandGuarantees.StopEndsEverything | main/app_state.c:96-113 | a stop, emergency stop or clear request leaves no job, schedule, pause or job clock of any kind, drops the owner and advances the epoch |
| CommandGuarantees.ReservationIff | main/app_state.c:55-95 | a reservation is granted exactly when none is held, nothing works and no output is on or asked for; for OTA or reset also only unlatched with readings at most 1.5 s old below 30 C |
| CommandGuarantees.HolderIff | main/settings_store.c:370-397 | a factory reset is admitted exactly on a free, unlatched, cold device and holds the reservation for good; calibration and release belong exactly to its holder outside a reset |
| CommandGuarantees.FailuresInhibit | main/safety_latch.c:87-96 | a failing watchdog or service latches and inhibits for the boot and cancels any clear; the watchdog cuts the SSR |
| CommandGuarantees.FlushIff | main/settings_deferred.c:29-41 | deferred settings are taken to flash exactly when newer than what was saved, on a free, unlatched device safely below 45 C |
| CommandGuarantees.JournalIff | main/session_journal.c:33-60 | the journal writes a dirty marker exactly for work or a schedule without one, a clean one exactly once the session is over on a free, cool device, and nothing while latched |
| CommandGuarantees.JournalEnds | main/session_journal.c:50-65 | a committed marker prepares the session or ends it with the reservation; a failed one inhibits |
| CommandGuarantees.BootIff | main/safety_latch.c:45-85 | a boot is latched exactly if the fault cells say so or cannot be read, the marker was left dirty, or hardware, journal or marker make it unusable, and inhibited exactly in the last case; outputs off, nothing reserved, no owner |
| CommandGuarantees.BootHasNoJob | main/app_main.c:32-63 | every boot starts without any job, schedule, ramp or job clock |
| RiseGuarantees.HeaterMustRise | main/safety.c:393-426 | in any run, from the pass that opens a rise window on, while the controller drives the heater of a chamber more than 2 C below target: the first such pass at least 60 s later ends latched with the SSR off, unless PTC has risen by 5 C or the chamber by 1 C since, or a reading is missing; SSR off-phases do not reset it |
| RiseGuarantees.NoHeatWithoutRise | main/safety.c:1335-1339 | no pass leaves the SSR on in a chamber more than 2 C below target after a whole window of that without a rise |
| JobGuarantees.JobRunsItsUnpausedTime | main/job_commands.h:15-34 | over any run of ticks, pauses and resumes a drying, preheat-hold, dry-out, tempering, health-test or keep-warm clock ends its job exactly when its un-paused time is used up or the session has lasted for its configured limit; AUTO jobs under a keep or lower pause policy included |
| ClockGuarantees.DeviceJobRunsItsTime | main/safety.c:1091-1175 | the same over runs of the device, with commands, worker steps, interrupts, reservations and the commit of each pass: a pass ends a running job exactly when its un-paused time is used up or the session has lasted for its configured limit, and no other event short of a stop, a latch or a power loss ends it |
| JobGuarantees.DryingStarts | main/job_commands.h:37-45 | a drying start gives the requested minutes, within 1 and the session limit |
| JobGuarantees.HoldStarts | main/safety.c:211-223 | a chamber at its target gives the preheat hold its configured 1 to 240 minutes |
| JobGuarantees.DryoutStarts | main/safety.c:565-582 | the first tick of a dry-out cycle gives it its configured 1 to 240 minutes |
| JobGuarantees.TestStarts | main/safety.c:584-604 | the first tick of a health test gives it its configured 30 to 300 seconds |
| JobGuarantees.WarmStarts | main/safety.c:285-294 | the end of a print gives keep-warm its configured minutes |
| JobGuarantees.RampStarts | main/safety.c:121-154 | the end of a print gives the ramp its configured minutes, at most 240, from the selected target down |
| SessionGuarantees.SessionIsBounded | main/safety.c:428-455 | while work stays on, through any passes, pauses, resumes, faults, worker steps and interrupts, the session clock stands and every pass comes before the configured session limit, at most 720 minutes, has gone by, or loses its commit, switches off and inhibits |
| SessionGuarantees.LimitStopsWork | main/safety.c:1146-1175 | in any run a pass past the configured session limit ends the work, whatever job runs and whatever the sensors say |
| SessionGuarantees.EnergisedIsInSession | main/safety.c:428-455 | whenever the SSR is on, in any run, the latest pass came within the configured session limit after the session clock it left behind, and that clock is the one it found, or its own time |
| SessionGuarantees.BadSensorsLatch | main/safety.c:1246-1364 | a job at work on an invalid sensor, a health test that has just aborted included, trips or finds the latch in the same pass |
| JobOutcomes.PauseOutcome | main/safety.c:632-670 | while the printer of an AUTO job that has seen its print is paused or in error, the policy keeps the job, lowers its target once, or stops it, after the configured minutes of this pause, and at any other time only forgets when the pause began |
| JobOutcomes.PrintEndOutcome | main/safety.c:272-318 | the fresh end of a seen print tempers, keeps warm or stops the job as configured |
| JobOutcomes.TestOutcome | main/safety.c:584-630 | a health test ends after its 30 to 300 s and passes exactly if PTC has risen by 4 C or the chamber by half a degree; a bad sensor fails it at once |
| JobOutcomes.PauseAndResume | main/job_commands.h:15-34 | a pause stops a job at work at this time and nothing else; a resume moves every set job clock by the time spent paused and nothing else |
| JobGuarantees.RampNeverRises | main/safety.c:156-186 | over any run of ticks, pauses and resumes within one ramp the set-point never rises, lies between end and start, is never below the exact line and less than one degree above it |
| JobGuarantees.RampFollowsUnpausedTime | main/job_commands.h:21-33 | whatever pauses a run has, each set-point is exactly the one the original ramp prescribes for the un-paused time gone by |
| JobGuarantees.TemperNowArmsRamp | main/job_commands.h:46-66 | a temper-now start arms a falling ramp of 1 to 240 minutes from the clamped target |
| JobGuarantees.PauseIsInvisibleToRamp | main/job_commands.h:21-33 | the tempering set-point after a resume equals the one it would have had without the pause, and the session clock is not moved |
| JobControl.AllClocksListed | main/job_commands.h:24-27 | the pointer array names each resumable clock exactly once |
| SensorWatch.StuckChannelIsDetected | main/sensor_watch.h:34-92 | under continuous heat with fresh valid samples a channel whose code never changes is suspect, or FROZEN is reported, within 121.5 s whatever the other channel does |
| SensorWatch.DeadlineIsFixed | main/sensor_watch.h:55-70 | after the first warning FROZEN comes at exactly the first fresh valid step at least 300 s later; no pause or movement of the other channel shifts it while the job stays on |
| FreezeGuarantees.StillChannelIsSuspected | main/safety.c:1179-1208 | over runs of the device: if the SSR is on throughout, with passes at most 1.5 s apart, and a channel reads the same code in all of them over 121.5 s or more, some pass of the stretch left that channel suspect with a warning pending, whatever came before |
| FreezeEvidence.SuspicionIsEarned | main/sensor_watch.h:71-91 | in every run a suspected channel has, since power-up, read one code in every pass over a minute of a heating job, passes at most 1.5 s apart and the SSR on for at least 30 s of it, and has read no other code since |
| FreezeEvidence.WarningIsEarned | main/sensor_watch.h:55-91 | in every run a pending warning bears the time of the pass that completed such a minute, no pass since has found the job off, and FROZEN is in force only after a pass with the job on 300 s or more after it |
| FreezeEvidence.DeadlineIsExact | main/safety.c:1179-1208 | while the job stays on and the suspect channel never moves, a pass with a good sample leaves the watch frozen, and the latch set, exactly from 300 s after the warning on, whatever pauses, off-time, bad samples or movement of the other channel lie between; and from then on no pass leaves the SSR on |
| FreezeGuarantees.DeadlineHolds | main/safety.c:1179-1208 | the same in the terms the watch itself uses, as the deadline theorem for single observations carried through a run |
| FreezeGuarantees.CausalInRun | main/sensor_watch.h:71-91 | in every run the freeze watch holds only evidence of the past |
| ControlLease.ServedUntilDeadline | main/control_lease.c:38-106 | whatever came before, from a claim or heartbeat at time t until a takeover, release or renewal, its token is accepted with a fitting revision exactly up to t + 300 s, its heartbeat exactly as long, and any other token or source is refused |
| ControlLease.RevisionCountsChanges | main/control_lease.c:19-23 | the revision is the number of accepted claims, authorisations and releases modulo 2^32-1 and never the reserved ANY value |
| ControlLease.SameRevisionOnce | main/control_lease.c:38-106 | two accepted requests naming the same revision are at least 2^32-1 changes apart |
| ControlLease.LostLeaseStaysLost | main/control_lease.c:68-106 | a lease lost to takeover or release is never accepted again, given fresh random ids |
| ControlLease.ExpiredLeaseStaysExpired | main/control_lease.c:68-114 | an expired lease is never accepted again |
| HistorySync.PhonePartitionsHistory | apps/android/SnapHeaterU1/app/src/main/java/com/alphastudio/snapheateru1/data/TemperatureHistory.kt:37-86 | for each boot and any schedule of recordings, ring overwrites, fetches, stale or repeated ingests and reboots: sequence numbers up to the phone cursor are each stored, showing the time, temperatures in degrees, flags and fault of their record, or charged to exactly one overwritten gap, and nothing lies beyond |
| HistorySync.RunKeepsSane | apps/android/SnapHeaterU1/app/src/main/java/com/alphastudio/snapheateru1/data/HistorySync.kt:11-28 | device, requests in flight and store stay consistent over every run: cursors never run ahead of the boot they name, and every page in flight is what its boot recorded |
| HistorySync.StepKeepsSane | apps/android/SnapHeaterU1/app/src/main/java/com/alphastudio/snapheateru1/data/HistorySync.kt:11-28 | each recording, reboot, cursor read, fetch and commit keeps device, requests in flight and store consistent |
| HistorySync.CommitContinues | apps/android/SnapHeaterU1/app/src/main/java/com/alphastudio/snapheateru1/data/TemperatureHistory.kt:41-42 | a batch that passes the cursor check continues exactly where its boot had got to |
| Recorder.RecordTellsTheDevice | main/recorder.c:42-62 | each field of a record against the device at that moment: temperatures of good sensors rounded to tenths, the target of a job at work and not paused, SSR, fan, pause and fault |
| Recorder.RecordedCovers | main/recorder.c:42-62 | for turns in time order the chronicle is exactly a record for each turn ten seconds or more after the last one |
| HistoryProtocol.ParsedPageIsChecked | apps/android/SnapHeaterU1/app/src/main/java/com/alphastudio/snapheateru1/data/HistoryProtocol.kt:38-64 | an accepted page is of the expected device, its numbers are those of the message, and every row lies in the past of the page, later than the row before, with flags, fault and temperatures in range |
| TemperatureHistory.IngestMarks | apps/android/SnapHeaterU1/app/src/main/java/com/alphastudio/snapheateru1/data/TemperatureHistory.kt:37-86 | a transaction adds a restart, overwritten or invalid-sensor row exactly where the page gives cause, changes no row that was there, keeps the first anchor of the boot and moves the cursor to the page |
| TemperatureHistory.SpanCovers | apps/android/SnapHeaterU1/app/src/main/java/com/alphastudio/snapheateru1/data/TemperatureHistory.kt:62-86 | the span of a boot covers every sample of the page and grows no further |
| HistoryProtocol.HonestPageParses | main/recorder.c:118-153 | every page the recorder can produce, for any cursor and any history before 2^32 wrap, passes every check of the phone parser and reads back as exactly the recorded samples |
| HistoryProtocol.PagingAdvances | main/recorder.c:124-130 | a page asked for below the newest record strictly advances the cursor, and the newest cursor is a fixed point |
| HistoryProtocol.PagingReachesLast | main/recorder.c:118-132 | repeated paging reaches the newest record after one page per 32 retained records |
| HistoryProtocol.ParsedPageIsConsistent | apps/android/SnapHeaterU1/app/src/main/java/com/alphastudio/snapheateru1/data/HistoryProtocol.kt:38-64 | any accepted page, from whatever sender, has consecutive rows of the exact expected number, the right cursor and the right gap flag |
| TemperatureHistory.IngestExtends | apps/android/SnapHeaterU1/app/src/main/java/com/alphastudio/snapheateru1/data/TemperatureHistory.kt:37-86 | one ingest of an accepted page extends the partition of its boot exactly to the page cursor, stores every row as it came, replaces nothing and leaves other boots alone |
| SymbiontEngine.WriteFollowsObservation | main/symbiont_engine.h:34-76 | every fan write is the packet right after a query sent at most 2000 ms earlier at the same demand, whose matching reply was ready, complete and alarm-free, showed this fan more than 1.1 points off the demand, and showed the top cover if one is required |
| SymbiontEngine.ReplyOutcome | main/symbiont_engine.h:34-76 | the reply in flight ends the request; verified is reported exactly for a sound observation with every fan within 1.1 points of the demand, a correction exactly for one with a fan further off, a cover fault exactly for an alarm, a fault or a missing cover |
| SymbiontEngine.OneRequestAtATime | main/symbiont_engine.h:78-110 | between two packets came the reply to the first, a notification, a disconnect, a change of demand or activation, or 2 s |
| SymbiontEngine.RequiredTopWasSeen | main/symbiont_engine.h:62-66 | a required cover was shown by a reply of this activation |
| SymbiontEngine.PacketsAreBounded | main/symbiont_engine.h:80-96 | packets keep to the ids left for them and to a demand in percent |
| SymbiontEngine.TopStaysRequired | main/symbiont_engine.h:62-66 | a top cover once seen stays required until the activation ends |
| SymbiontEngine.PacketIdsDecrease | main/symbiont_engine.h:94-96 | ids of emitted packets strictly decrease |
| SymbiontEngine.LateReplyIsIgnored | main/symbiont_engine.h:34-37 | a reply to any packet but the one in flight changes nothing |
| SymbiontEngine.ConvergesQuickly | main/symbiont_engine.h:42-75 | with a printer that answers in time, an engine that its first poll finds or makes idle, the first poll after boot and a change of demand included, reports verified after one write per fan that is off and one observation more: at most two writes and three observations |
| SymbiontEngine.ActivationConverges | main/symbiont_engine.h:78-110 | so does every activation, the first after boot included, and every poll that changes the demand |
| SymbiontEngine.WritesAlternate | main/symbiont_engine.h:70-75 | of two neighbouring writes the second goes to the other fan whenever both still differ, so neither starves |
| WsMessageBuffer.MessageIsReassembled | main/ws_message_buffer.h:14-45 | a text message below the limit, in any frames and chunks with control frames anywhere between, is reported with its bytes by its last event and by none before it (section 5.4 of RFC 6455) |
| WsMessageBuffer.ReportedIffSent | main/ws_message_buffer.h:14-45 | the last of any data events reports a message if and only if it completes a chain of text frames without gap or overlap, below the limit throughout, and then exactly the bytes of that chain |
| WsMessageBuffer.FramesFollow | main/ws_message_buffer.h:14-45 | the frames of one message, as the first or after finished ones, append exactly their bytes and report the message only at the end |
| WsMessageBuffer.ControlIsInvisible | main/ws_message_buffer.h:14-18 | control frames anywhere between chunks change neither the buffer nor the messages reported |
| WsMessageBuffer.EventKeepsSane | main/ws_message_buffer.h:14-45 | for arbitrary events, used = frame_start + frame_received while active and everything fits with room for the terminator |
| OtaUpload.PermittedSlotIsTrusted | main/api_server.c:1375-1468 | however often uploads are tried and wherever power fails, a slot that boot-inactive would permit, or that is selected, holds the original image or one completely received, hash-matched, validated and of accepted identity |
| OtaUpload.UploadBootsIff | main/api_server.c:1338-1491 | an upload selects the slot if and only if it is admitted, its body arrives whole with the announced hash, is a valid image of one of the three accepted projects, and every durable step succeeds; the slot then holds exactly the delivered bytes, unmarked; a refused upload leaves the flash as it was |
| OtaUpload.UploadPermitsIff | main/api_server.c:1422-1468 | a marked slot ends permitted if and only if its image arrived, was recognised and the permission was recorded and read back; a mismatching or foreign image is erased |
| OtaUpload.UploadIsSafe | main/api_server.c:1375-1468 | every power-loss point of one upload leaves the slot safe |
| StopPriorityGate.StopPreemptsIffNoneCleared | apps/android/SnapHeaterU1/app/src/main/java/com/alphastudio/snapheateru1/ble/StopPriorityGate.kt:19-45 | "no operation admitted before a STOP starts its body after it" holds if and only if, when the STOP is admitted, no operation stands between its generation check and its body |
| StopPriorityGate.GapIsReachable | apps/android/SnapHeaterU1/app/src/main/java/com/alphastudio/snapheateru1/ble/StopPriorityGate.kt:32-37 | a concrete run that hits the gap: check passed, STOP admitted, body still starts |
| StopPriorityGate.OnlyTheHolderStarts | apps/android/SnapHeaterU1/app/src/main/java/com/alphastudio/snapheateru1/ble/StopPriorityGate.kt:23-38 | at most one operation can slip through the gap, the one holding the transport when the STOP is admitted, and the STOP has it among those to cancel |
| StopPriorityGate.StopCancelsFirst | apps/android/SnapHeaterU1/app/src/main/java/com/alphastudio/snapheateru1/ble/StopPriorityGate.kt:28-31 | a STOP waits for the transport only once every operation it found inside is cancelled or gone |
| StopPriorityGate.CancelledNeverStarts | apps/android/SnapHeaterU1/app/src/main/java/com/alphastudio/snapheateru1/ble/StopPriorityGate.kt:32-36 | an operation cancelled before it has the transport and has looked never starts its body |
| StopPriorityGate.StopExcludesOthers | apps/android/SnapHeaterU1/app/src/main/java/com/alphastudio/snapheateru1/ble/StopPriorityGate.kt:24-43 | until an admitted STOP leaves, no body of another kind starts, given nothing was cleared when it came |
| StopPriorityGate.BodiesNeverOverlap | apps/android/SnapHeaterU1/app/src/main/java/com/alphastudio/snapheateru1/ble/StopPriorityGate.kt:32-38 | bodies never overlap |
| StopPriorityGate.StopOvertakes | apps/android/SnapHeaterU1/app/src/main/java/com/alphastudio/snapheateru1/ble/StopPriorityGate.kt:26-36 | an operation not yet cleared, a waiting earlier STOP included, never starts once a newer STOP is admitted |
| PhysicalControls.EventsNeedNewPress | main/physical_controls.c:333-348 | between two events of a button a new debounced press started: at most one event per stable press |
| PhysicalControls.ChangesAreDebounced | main/physical_controls.c:328-334 | a debounced change was read at every poll of the last 20 ms |
| PhysicalControls.ComboConsumesBoth | main/physical_controls.c:351-364 | once the recovery gesture forms neither of its presses can emit anything |
| PhysicalControls.HeldButton | main/physical_controls.c:313-348 | a button pressed from rest counts from the first poll 20 ms or more later, and is reported as long by the first poll 2 s or more after that and by no other |
| PhysicalControls.ReleasedButton | main/physical_controls.c:328-348 | a released button is reported as short by the first poll 20 ms or more later exactly if its press had counted and was not reported as long |
| PhysicalControls.GestureFires | main/physical_controls.c:351-371 | the gesture, held from its forming on, attempts the factory reset in the first poll 5 s or more later and in no other |
| PhysicalControls.ResetsNeedNewHold | main/physical_controls.c:365-371 | between two factory-reset attempts the gesture was let go |
| Ntc.StockTableConverts | main/ntc.c:69-82 | over the stock table the conversion is total, within 12..125 C, exact at every entry, and never reads hotter for a larger resistance |
| Ntc.EntriesConvertExactly | main/ntc.c:69-82 | every table entry converts to its own temperature, for any falling table |
| FanTriac.EdgesCounted | main/fan_triac.c:46-70 | the interrupt counters are exactly the accepted edges, the rejected ones and the intervals above 100 ms |
| FanTriac.PeriodsMeasured | main/fan_triac.c:46-70 | the shortest, longest and last period are those of the accepted edges, as 32-bit counters hold them |
| FanTriac.FanFollowsRequest | main/fan_triac.c:46-112 | a request is served at once when it is off, and by the next accepted edge when it is on |
| ControlTask.Supervisor.ControlPass | main/safety.c:1089-1431 | one iteration of the control loop, written on the shared records in place, computes exactly the pass the theorems are about |
| ControlTask.Supervisor.PassLease | main/safety.c:1104-1118 | an expired remote lease passes to a running or scheduled local job and is dropped otherwise |
| ControlTask.Supervisor.Admit | main/safety.c:1121-1144 | without a fresh sample the SSR is cut at once and both statuses are invalid |
| ControlTask.Supervisor.ReportJobs | main/safety.c:1146-1178 | the job steps in order, one reported outcome, the effective target |
| ControlTask.Supervisor.DistrustSensors | main/safety.c:1196-1207 | a stale, invalid or frozen sample cuts the SSR and invalidates both statuses |
| ControlTask.Supervisor.Decide | main/safety.c:1209-1293 | overtemperature before sensor fault before the job; heat only where nothing inhibits it, airflow for the whole job |
| ControlTask.Supervisor.UpdateFoldback | main/safety.c:1223-1233 | PTC foldback with its 3 C hysteresis |
| ControlTask.Supervisor.StepController | main/heater_control.h:16-27 | hysteresis demand: off at the target, on below target minus one degree, kept in between |
| ControlTask.Supervisor.LookAtZeroCross | main/safety.c:1306-1316 | zero cross is remembered across SSR off-windows of a session only, and a grown gap counter counts as lost |
| ControlTask.Supervisor.UpdateRiseDetector | main/safety.c:393-426 | no-rise is reported only when a full window shows neither sensor rising enough |
| ControlTask.Supervisor.Judge | main/safety.c:1295-1346 | which fault is reported, what drives the fan and what counts as a hazard |
| ControlTask.Supervisor.Consult | main/safety.c:1347-1368 | trip once with the SSR already cut, arm a requested clear only when allowed, hold the job while latched |
| ControlTask.Supervisor.UpdatePurge | main/safety.c:1370-1390 | residual-heat purge with its restart band |
| ControlTask.Supervisor.SetGate | main/safety.c:954-968 | armed is session intent, ready needs sensors, zero cross and no fault or maintenance |
| ControlTask.Supervisor.CommitPass | main/safety.c:1421-1428 | a lost epoch-checked commit cuts the SSR and inhibits |
| Device.Controller.HeaterSet | main/heater.c:68-96 | the fan is requested first; the SSR follows only a running fan, a ready journal and no latch or inhibit |
| Device.Controller.CutPower | main/heater.c:98-103 | pin and mirror go off together |
| Device.Controller.TripDeferred | main/safety_latch.c:223-230 | the SSR is cut before the trip |
| Device.Controller.LimitSettings | main/app_state.c:377-399 | every stored target is clamped |
| Device.Controller.UpdateSettingsCommand | main/app_state.c:409-417 | a command replaces the settings, limited, and advances the epoch past zero |
| Device.Controller.CommitControlIfEpoch | main/app_state.c:426-439 | a pass from an older epoch changes nothing |
| Device.Controller.NetworkSetupBegin | main/app_state.c:85-95 | the reservation is granted exactly when nothing works, nothing is powered and nobody holds it |
| Device.Controller.CheckpointBegin | main/app_state.c:73-84 | a checkpoint also needs no latch and fresh sensors below 45 C |
| Device.Controller.MaintenanceBegin | main/app_state.c:55-71 | OTA and reset also need both sensors below 30 C |
| Device.Controller.SafeStop | main/app_state.c:96-113 | stop ends every job, schedule and clock, drops the owner and advances the epoch |
| Device.Controller.EmergencyStop | main/api_server.c:679-686 | panic trip, then stop |
| Device.Controller.RequestClear | main/api_server.c:813-817 | stop, drop the owner, then file the clear request |
| Device.Controller.ClearBlocked | main/safety_latch.c:240-256 | when a clear may not proceed |
| Device.Controller.FinishClear | main/safety_latch.c:281-291 | the second revalidation and its outcome |
| Device.Controller.JournalBegin | main/session_journal.c:43-60 | what the journal decides under the guard; a clean write drops prepared and holds the reservation |
| Device.Controller.JournalDirtyWritten | main/session_journal.c:50-54 | prepared only after a committed marker, else inhibited |
| Device.Controller.JournalCleanWritten | main/session_journal.c:61-65 | the reservation ends with the clean write, which inhibits if it failed |
| Device.Controller.JournalInit | main/session_journal.c:13-31 | a marker of 1 trips at boot, an unreadable one is reported as unusable |
| Device.Outbox.Defer | main/settings_deferred.c:13-20 | latest value wins |
| Device.Outbox.Take | main/settings_deferred.c:29-41 | a flush is taken only when due and the checkpoint reservation is granted |
| Device.Outbox.Acknowledge | main/settings_deferred.c:43-51 | only the written revision is acknowledged |
| SafetyLatch.FaultLatch.Init | main/safety_latch.c:45-85 | restores the latch; an unreadable store latches |
| SafetyLatch.FaultLatch.Inhibit | main/safety_latch.c:87-96 | latched and inhibited, pending clears cancelled, generation advanced |
| SafetyLatch.FaultLatch.TripVolatile | main/safety_latch.c:141-153 | sets a clear latch only; no generation change |
| SafetyLatch.FaultLatch.DeferTrip | main/safety_latch.c:223-230 | latched, persistence pending, clears cancelled, generation advanced |
| SafetyLatch.FaultLatch.TakeClearRequest | main/safety_latch.c:198-204 | consumes the request |
| SafetyLatch.FaultLatch.DeferClear | main/safety_latch.c:232-238 | arms a clear at the current generation unless inhibited or not latched |
| SafetyLatch.FaultLatch.ServiceBegin | main/safety_latch.c:264-271 | takes the armed clear |
| SafetyLatch.FaultLatch.ServiceCheck | main/safety_latch.c:274-279 | first revalidation |
| SafetyLatch.FaultLatch.ServiceFinish | main/safety_latch.c:281-291 | second revalidation; unlatches or queues persistence |
| SafetyLatch.FaultLatch.RetrySnapshot | main/safety_latch.c:155-176 | when a retry is due and what it will write |
| SafetyLatch.FaultLatch.RetryFinish | main/safety_latch.c:180-184 | only an unchanged generation clears pending |
| FanTriac.TriacFan.ZeroCrossIsr | main/fan_triac.c:46-70 | accepts, rejects, counts gaps, and lets the gate follow the request |
| FanTriac.TriacFan.Set | main/fan_triac.c:99-112 | off is immediate, on waits for an edge; the gate is never on without a request |
| FanTriac.TriacFan.IsRunning | main/fan_triac.c:124-136 | gate applied and zero cross within 100 ms |
| FanTriac.TriacFan.ZeroCrossStats | main/fan_triac.c:138-155 | the counters and freshness |
| SensorWatch.FreezeWatch.SampleFresh | main/sensor_watch.h:34-41 | sequence, ordering and age of an acquisition |
| SensorWatch.FreezeWatch.Step | main/sensor_watch.h:43-92 | the two-channel freeze detector |
| SensorWatch.FreezeWatch.JudgeStep | main/sensor_watch.h:55-70 | only a channel's own movement exonerates it; both clear resets the warning |
| SensorWatch.FreezeWatch.CollectStep | main/sensor_watch.h:71-91 | evidence is collected only over continuous heating |
| ControlLease.Arbiter.Claim | main/control_lease.c:38-66 | verdict, new owner and lease of a claim |
| ControlLease.Arbiter.Authorize | main/control_lease.c:68-85 | who may command now |
| ControlLease.Arbiter.Heartbeat | main/control_lease.c:87-96 | extends only the caller's own live lease |
| ControlLease.Arbiter.ReleaseAny | main/control_lease.c:98-106 | drops the owner and advances the revision |
| ControlLease.Arbiter.AdvanceRevision | main/control_lease.c:19-22 | skips zero and ANY |
| JobControl.JobState.Stop | main/app_state.c:96-113 | every job, schedule and clock is gone |
| JobControl.JobState.UpdateTempering | main/safety.c:156-186 | ramp set-point or end of the ramp |
| JobControl.JobState.StartTemperingIfEnabled | main/safety.c:121-154 | a ramp starts only after a seen print |
| JobControl.JobState.UpdatePreheat | main/safety.c:188-236 | heat, hold, complete |
| JobControl.JobState.DryingTimerExpired | main/safety.c:238-247 | drying ends at its deadline |
| JobControl.JobState.UpdateDryout | main/safety.c:565-582 | dry-out cycle |
| JobControl.JobState.UpdateHealthTest | main/safety.c:584-630 | health test and its verdict |
| JobControl.JobState.UpdateSchedule | main/safety.c:541-563 | a schedule that may not start stops everything |
| JobControl.JobState.UpdatePausePolicy | main/safety.c:632-670 | lower or stop during a printer pause |
| JobControl.JobState.UpdateAutoContext | main/safety.c:272-318 | print context, end of print, keep-warm |
| JobControl.JobState.UpdateSessionWatchdog | main/safety.c:428-455 | session limit |
| JobControl.JobState.RunJobs | main/safety.c:1146-1175 | the job steps in order and one outcome |
| JobControl.JobState.FinishJobCommand | main/job_commands.h:15-67 | pause, resume and explicit start |
| JobControl.JobState.MoveClocks | main/job_commands.h:24-29 | every set clock moves by the paused time, unset ones stay unset |
| Recorder.Ring.Sample | main/recorder.c:42-62 | a record every ten seconds over the oldest one |
| Recorder.Ring.PageAfter | main/recorder.c:118-132 | the page of a cursor is the one the whole history prescribes |
| Recorder.SampleKeepsChronicle | main/recorder.c:50-61 | records are numbered from 1 and at least ten seconds apart |
| HistoryProtocol.FetchHistoryBatch | apps/android/SnapHeaterU1/app/src/main/java/com/alphastudio/snapheateru1/data/HistoryProtocol.kt:13-23 | a changed boot is refetched from zero; an accepted page is consistent with what was asked |
| TemperatureHistory.Database.Ingest | apps/android/SnapHeaterU1/app/src/main/java/com/alphastudio/snapheateru1/data/TemperatureHistory.kt:37-86 | the transaction commits all of it or, on a failed check, nothing |
| TemperatureHistory.Database.RecordGaps | apps/android/SnapHeaterU1/app/src/main/java/com/alphastudio/snapheateru1/data/TemperatureHistory.kt:50-61 | restart and overwritten gaps |
| SymbiontEngine.Supervisor.Next | main/symbiont_engine.h:78-110 | one poll of the engine |
| SymbiontEngine.Supervisor.Response | main/symbiont_engine.h:34-76 | one reply |
| SymbiontEngine.Supervisor.Notify | main/symbiont_engine.h:23-32 | a partial notification only invalidates |
| WsMessageBuffer.MessageBuffer.Accumulate | main/ws_message_buffer.h:14-45 | any event is handled inside the buffer; a completed message is NUL-terminated at its start |
| OtaUpload.Updater.Upload | main/api_server.c:1338-1491 | the handler passes through exactly the modelled durable states; success means a verified, permitted, selected slot; the reservation is kept exactly after a success or when a mismatching image could not be erased |
| OtaUpload.Updater.ReceiveBody | main/api_server.c:1406-1421 | deadline, silence, short reads and failing writes |
| OtaUpload.Updater.SlotPending | main/ota_storage.c:7-16 | the durable marker write |
| OtaUpload.Updater.SlotBootAllowed | main/ota_storage.c:17-27 | missing permits, unreadable never does |
| OtaUpload.Updater.BootInactive | main/api_server.c:1497-1527 | selects only a permitted, described slot of accepted identity |
| StopPriorityGate.AdmissionGate.Admit | apps/android/SnapHeaterU1/app/src/main/java/com/alphastudio/snapheateru1/ble/StopPriorityGate.kt:23-29 | the first monitor section |
| StopPriorityGate.AdmissionGate.Current | apps/android/SnapHeaterU1/app/src/main/java/com/alphastudio/snapheateru1/ble/StopPriorityGate.kt:34-36 | the second monitor section |
| StopPriorityGate.AdmissionGate.Remove | apps/android/SnapHeaterU1/app/src/main/java/com/alphastudio/snapheateru1/ble/StopPriorityGate.kt:39-44 | the finally block |
| PhysicalControls.Panel.PollButtons | main/physical_controls.c:313-372 | one poll of all buttons and the gesture |
| Ntc.ResistanceToTemp | main/ntc.c:69-82 | the loop finds the one bracketing interval |
| Ntc.Smoother.PushSmoothed | main/ntc.c:102-110 | the mean of the last five readings, or of all of them while there are fewer |
| PlantState.SafetyTemperature | main/thermal_limits.h:6-9 | never below the calibrated or the uncorrected reading, and equal to one of them |
| PlantState.FoldbackLimit | main/thermal_limits.h:11-15 | within 90..102 C, and at most 99 C on the 33 kOhm board |

## Left out

- The 64-bit generation and revision counters of the latch and the mailbox are unbounded here; the 32-bit command epoch,
  lease revision and history sequence wrap or are bounded as in the source.
- The synchronous `shu1_safety_latch_trip` and `shu1_safety_latch_clear`, which the runtime never calls.
- The lock-free RAM steps of the storage worker that need no guard are placed between control passes, not inside one.
- A request with several commands at once: commands are stop, emergency stop, clear request, and a settings update that
  is admitted only while starting is allowed if it leaves work or a schedule on.
- Ownership checks of individual requests before they reach the lease arbiter.
- Warm-up prediction, wear, airflow, risk and safety scores, notifications, incident text, virtual door and material
  advice, which never reach an output; the optional automatic material profile is an arbitrary input of the job logic.
- The heat-soak display state; its two clocks are moved by a resume like the others.
- GPIO, ADC, flash, OTA partition, hash and RTOS internals: a pin, arbitrary samples, fallible cells, an arbitrary hash
  function, and atomic sections.
- IEEE rounding: reals are exact, so set-points, means and the printer fan tolerance are not compared with their float
  values; the printer fan curve is reduced to its hysteresis, because its percentage never reaches the heater.
- `historyAnchor` and wall-clock time: an anchor is an arbitrary number, fixed at a boot's first page.
- The coercions of Android's `getString`: a device or boot id that is not a JSON string is rejected here.
- The phone's older per-snapshot table and its merged reading and export.
- The recorder's usage totals and their checkpoint.
- The GATT, HTTP, Wi-Fi and WebSocket transports, JSON building of status pages, and the Android user interface.
- The OTA boot pointer after a restart: once an upload selects the slot, the run of that slot ends.
- Calibrated voltage to resistance, offset storage and strap detection of the temperature sensors.
- Dry-run builds: the model is the production build with heater and fan outputs enabled on the accepted pins.
- JobGuarantees.JobRunsItsUnpausedTime: a stop-after pause policy that fires, a sensor fault in a health test and another
  print ending during keep-warm end or restart the job by design; such ticks are left out, by `Undisturbed`.
- ClockGuarantees.DeviceJobRunsItsTime: besides those, passes that see the latch or lose their commit, stops, power loss
  and commands other than pause and resume are left out, by `Spares`; they end or replace the job.
