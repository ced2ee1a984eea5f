/** main/safety_latch.c: the persistent hazardous-fault latch. */
module SafetyLatch {
  import opened Common
  import HF = HeaterFaults

  /** The file's static variables. `mutexOk` is false when the NVS mutex could not be created. */
  datatype Latch = Latch(
    mutexOk: bool,
    latched: bool,
    inhibited: bool,
    clearRequested: bool,
    persistPending: bool,
    fault: int,
    generation: nat,
    deferredClear: bool,
    clearGeneration: nat,
    lastAttemptUs: int)

  /** The two durable cells "fault_code" and "fault_latch"; None means the key is missing. */
  datatype FaultCells = FaultCells(code: Option<int>, latch: Option<int>)

  /** What the boot-time reads return. */
  datatype BootRead = OpenFails | LatchReadFails | CodeReadFails | ReadsOk

  const RETRY_PERIOD_US := 2_000_000

  // ---------------------------------------------------------------- specification functions

  /** Static initialisation before shu1_safety_latch_init runs. */
  const RESET := Latch(true, false, false, false, false, HF.OK, 0, false, 0, 0)

  /** The latch and fault restored from flash; unreadable means latched. */
  function Restored(cells: FaultCells, read: BootRead): (bool, int)
  {
    if cells.code.None? && cells.latch.None? && !read.OpenFails? then (false, HF.OK)
    else if read.OpenFails? then (true, HF.NVS_UNREADABLE)
    else if read.LatchReadFails? then (true, HF.NVS_UNREADABLE)
    else if cells.latch.None? || cells.latch.value == 0 then (false, HF.OK)
    else if read.CodeReadFails? || cells.code.None? then (true, HF.NVS_UNREADABLE)
    else (true, HF.Sanitize(cells.code.value))
  }

  function AfterInit(l: Latch, mutexOk: bool, cells: FaultCells, read: BootRead): Latch
  {
    var (latched, fault) := if mutexOk then Restored(cells, read) else (true, HF.NVS_UNREADABLE);
    Latch(mutexOk, latched, l.inhibited, false, false, fault, l.generation + 1, false, l.clearGeneration, 0)
  }

  function AfterInhibit(l: Latch): Latch
  {
    l.(inhibited := true, latched := true, fault := HF.PERSISTED_FAULT, clearRequested := false,
       generation := l.generation + 1, deferredClear := false)
  }

  function AfterTripVolatile(l: Latch, fault: int): Latch
  {
    if l.latched then l
    else l.(latched := true, fault := HF.Sanitize(fault), clearRequested := false)
  }

  function AfterDeferTrip(l: Latch, fault: int): Latch
  {
    l.(generation := l.generation + 1, latched := true, fault := HF.Sanitize(fault), persistPending := true,
       clearRequested := false, deferredClear := false, lastAttemptUs := 0)
  }

  function AfterRequestClear(l: Latch): Latch { l.(clearRequested := true) }

  function AfterTakeClear(l: Latch): Latch { l.(clearRequested := false) }

  function AfterDeferClear(l: Latch): Latch
  {
    if !l.inhibited && l.latched then l.(deferredClear := true, clearGeneration := l.generation) else l
  }

  function AfterServiceBegin(l: Latch): Latch { l.(deferredClear := false) }

  predicate ServiceTakesClear(l: Latch) { l.deferredClear && !l.inhibited }

  /** First revalidation, before the flash write. */
  predicate MayWriteClear(l: Latch, generation: nat, stateSafe: bool)
  {
    stateSafe && l.latched && !l.inhibited && generation == l.generation
  }

  /** Second revalidation, after the flash write. */
  predicate MayFinishClear(l: Latch, generation: nat, written: bool, stateSafe: bool)
  {
    written && stateSafe && !l.inhibited && generation == l.generation
  }

  function AfterServiceFinish(l: Latch, safe: bool): Latch
  {
    if safe then
      l.(generation := l.generation + 1, latched := false, fault := HF.OK, clearRequested := false,
         persistPending := false)
    else if l.latched then l.(persistPending := true, lastAttemptUs := 0)
    else l
  }

  predicate RetryDue(l: Latch, nowUs: int)
  {
    l.persistPending && !(l.lastAttemptUs != 0 && nowUs - l.lastAttemptUs < RETRY_PERIOD_US) && l.mutexOk
  }

  function AfterRetrySnapshot(l: Latch, nowUs: int): Latch { l.(lastAttemptUs := nowUs) }

  function AfterRetryFinish(l: Latch, ok: bool, generation: nat): Latch
  {
    if ok && l.generation == generation then l.(persistPending := false) else l
  }

  /** persist_fault_locked: the code cell is written first, then the latch cell, then committed. */
  function AfterPersist(cells: FaultCells, latched: bool, fault: int, w: NvsWrite): FaultCells
  {
    var code := Some(fault);
    var latch := Some(if latched then 1 else 0);
    match w
    case Committed => FaultCells(code, latch)
    case Failed(codeLanded, latchLanded) =>
      FaultCells(if codeLanded then code else cells.code, if latchLanded then latch else cells.latch)
  }

  // ---------------------------------------------------------------- the module itself

  class FaultLatch {
    var mutexOk: bool
    var latched: bool
    var inhibited: bool
    var clearRequested: bool
    var persistPending: bool
    var fault: int
    var generation: nat
    var deferredClear: bool
    var clearGeneration: nat
    var lastAttemptUs: int

    ghost function View(): Latch
      reads this
    {
      Latch(mutexOk, latched, inhibited, clearRequested, persistPending, fault, generation, deferredClear,
            clearGeneration, lastAttemptUs)
    }

    constructor ()
      ensures View() == RESET
    {
      mutexOk, latched, inhibited, clearRequested := true, false, false, false;
      persistPending, fault, generation := false, HF.OK, 0;
      deferredClear, clearGeneration, lastAttemptUs := false, 0, 0;
    }

    method Init(mutexCreated: bool, cells: FaultCells, read: BootRead)
      modifies this
      ensures View() == AfterInit(old(View()), mutexCreated, cells, read)
    {
      mutexOk := mutexCreated;
      latched, clearRequested, persistPending := false, false, false;
      fault, lastAttemptUs := HF.OK, 0;
      generation, deferredClear := generation + 1, false;
      if !mutexOk {
        latched, fault := true, HF.NVS_UNREADABLE;
        return;
      }
      if read.OpenFails? {
        latched, fault := true, HF.NVS_UNREADABLE;
        return;
      }
      if cells.code.None? && cells.latch.None? {
        return;  // the namespace does not exist yet
      }
      if !read.LatchReadFails? && cells.latch.None? {
        return;
      }
      var codeUnreadable := read.CodeReadFails? || cells.code.None?;
      if read.LatchReadFails? || (cells.latch.value != 0 && codeUnreadable) {
        latched, fault := true, HF.NVS_UNREADABLE;
        return;
      }
      if cells.latch.value != 0 {
        var reason := cells.code.value;
        if reason <= HF.OK || reason >= HF.FAULT_COUNT {
          reason := HF.PERSISTED_FAULT;
        }
        latched, fault := true, reason;
      }
    }

    method Inhibit()
      modifies this
      ensures View() == AfterInhibit(old(View()))
    {
      inhibited := true;
      latched := true;
      fault := HF.PERSISTED_FAULT;
      clearRequested := false;
      generation := generation + 1;
      deferredClear := false;
    }

    method TripVolatile(reason: int)
      modifies this
      ensures View() == AfterTripVolatile(old(View()), reason)
    {
      var f := reason;
      if f <= HF.OK || f >= HF.FAULT_COUNT {
        f := HF.PERSISTED_FAULT;
      }
      if !latched {
        latched := true;
        fault := f;
        clearRequested := false;
      }
    }

    method DeferTrip(reason: int)
      modifies this
      ensures View() == AfterDeferTrip(old(View()), reason)
    {
      var f := reason;
      if f <= HF.OK || f >= HF.FAULT_COUNT {
        f := HF.PERSISTED_FAULT;
      }
      generation := generation + 1;
      latched, fault, persistPending := true, f, true;
      clearRequested, deferredClear, lastAttemptUs := false, false, 0;
    }

    method RequestClear()
      modifies this
      ensures View() == AfterRequestClear(old(View()))
    {
      clearRequested := true;
    }

    method TakeClearRequest() returns (requested: bool)
      modifies this
      ensures requested == old(clearRequested)
      ensures View() == AfterTakeClear(old(View()))
    {
      requested := clearRequested;
      clearRequested := false;
    }

    method DeferClear()
      modifies this
      ensures View() == AfterDeferClear(old(View()))
    {
      if !inhibited && latched {
        deferredClear := true;
        clearGeneration := generation;
      }
    }

    /** shu1_safety_latch_service up to its first guard acquisition. */
    method ServiceBegin() returns (clear: bool, armedGeneration: nat)
      modifies this
      ensures clear == ServiceTakesClear(old(View())) && armedGeneration == old(clearGeneration)
      ensures View() == AfterServiceBegin(old(View()))
    {
      clear := deferredClear && !inhibited;
      armedGeneration := clearGeneration;
      deferredClear := false;
    }

    /** The critical section under the first guard. */
    method ServiceCheck(armedGeneration: nat, stateSafe: bool) returns (safe: bool)
      ensures safe == MayWriteClear(View(), armedGeneration, stateSafe)
    {
      safe := stateSafe;
      safe := safe && latched && !inhibited && armedGeneration == generation;
    }

    /** The critical section under the second guard, after the flash write. */
    method ServiceFinish(armedGeneration: nat, written: bool, stateSafe: bool) returns (safe: bool)
      modifies this
      ensures safe == MayFinishClear(old(View()), armedGeneration, written, stateSafe)
      ensures View() == AfterServiceFinish(old(View()), safe)
    {
      safe := written && stateSafe;
      safe := safe && !inhibited && armedGeneration == generation;
      if safe {
        generation := generation + 1;
        latched, fault := false, HF.OK;
        clearRequested, persistPending := false, false;
      } else if latched {
        persistPending, lastAttemptUs := true, 0;
      }
    }

    /** shu1_safety_latch_retry_persist up to the flash write; `go` tells whether it gets there. */
    method RetrySnapshot(nowUs: int) returns (go: bool, stillLatched: bool, reason: int, seen: nat)
      modifies this
      ensures go == RetryDue(old(View()), nowUs)
      ensures stillLatched == old(latched) && reason == old(fault) && seen == old(generation)
      ensures View() == if go then AfterRetrySnapshot(old(View()), nowUs) else old(View())
    {
      stillLatched, reason, seen := latched, fault, generation;
      if !persistPending {
        return false, stillLatched, reason, seen;
      }
      if lastAttemptUs != 0 && nowUs - lastAttemptUs < RETRY_PERIOD_US {
        return false, stillLatched, reason, seen;
      }
      if !mutexOk {
        return false, stillLatched, reason, seen;
      }
      lastAttemptUs := nowUs;
      go := true;
    }

    method RetryFinish(ok: bool, seen: nat)
      modifies this
      ensures View() == AfterRetryFinish(old(View()), ok, seen)
    {
      if ok {
        if generation == seen {
          persistPending := false;
        }
      }
    }
  }
}
