/**
 * StopPriorityGate.kt: admission of device operations. The monitor sections are atomic; everything between them, the
 * cancellations, the transport lock and the body, interleaves freely with other operations.
 */
module StopPriorityGate {
  import opened Common

  /** Where an admitted operation stands. Cleared: its generation check has passed, its body has not started. */
  datatype Phase = Cancelling | Waiting | Holding | Active | Cleared | Body | Leaving

  datatype Op = Op(stop: bool, epoch: nat, phase: Phase, cancelled: bool, victims: set<nat>)

  /** `seen` is history only: a job enters at most once. The admitted set is the domain of `ops`. */
  datatype Gate = Gate(generation: nat, stops: nat, ops: map<nat, Op>, holder: Option<nat>, seen: set<nat>)

  datatype Event =
    | Enter(job: nat, stop: bool)
    | CancelVictim(job: nat, victim: nat)
    | CancelsDone(job: nat)
    | Acquire(job: nat)
    | GiveUp(job: nat)
    | EnsureActive(job: nat)
    | CheckGeneration(job: nat)
    | Start(job: nat)
    | Finish(job: nat)
    | Leave(job: nat)
    | CancelFromOutside(job: nat)

  const IDLE := Gate(0, 0, map[], None, {})

  // ---------------------------------------------------------------- specification functions

  predicate Refuses(g: Gate, stop: bool) { !stop && g.stops > 0 }

  function AfterEnter(g: Gate, job: nat, stop: bool): Gate
  {
    if job in g.seen then g
    else if Refuses(g, stop) then g.(seen := g.seen + {job})
    else
      var generation := if stop then g.generation + 1 else g.generation;
      var op := Op(stop, generation, Cancelling, false, if stop then g.ops.Keys else {});
      g.(generation := generation, stops := if stop then g.stops + 1 else g.stops, ops := g.ops[job := op],
         seen := g.seen + {job})
  }

  function WithPhase(g: Gate, job: nat, phase: Phase): Gate
    requires job in g.ops
  {
    g.(ops := g.ops[job := g.ops[job].(phase := phase)])
  }

  function Cancelled(g: Gate, job: nat): Gate
  {
    if job in g.ops then g.(ops := g.ops[job := g.ops[job].(cancelled := true)]) else g
  }

  /** An exception releases the transport if it was held, and runs the finally block next. */
  function Failed(g: Gate, job: nat): Gate
    requires job in g.ops
  {
    WithPhase(g, job, Leaving).(holder := if g.holder == Some(job) then None else g.holder)
  }

  function AfterLeave(g: Gate, job: nat): Gate
    requires job in g.ops
  {
    g.(stops := if g.ops[job].stop && g.stops > 0 then g.stops - 1 else g.stops, ops := g.ops - {job})
  }

  /** Events that are not enabled change nothing. */
  function Step(g: Gate, e: Event): Gate
  {
    if e.Enter? then AfterEnter(g, e.job, e.stop)
    else if e.job !in g.ops then g
    else
      var op := g.ops[e.job];
      match e
      case CancelVictim(job, victim) =>
        if op.phase.Cancelling? && victim in op.victims
        then Cancelled(g.(ops := g.ops[job := op.(victims := op.victims - {victim})]), victim) else g
      case CancelsDone(job) => if op.phase.Cancelling? && op.victims == {} then WithPhase(g, job, Waiting) else g
      case Acquire(job) =>
        if op.phase.Waiting? && g.holder.None? then WithPhase(g, job, Holding).(holder := Some(job)) else g
      case GiveUp(job) => if op.phase.Waiting? && op.cancelled then Failed(g, job) else g
      case EnsureActive(job) =>
        if !op.phase.Holding? then g else if op.cancelled then Failed(g, job) else WithPhase(g, job, Active)
      case CheckGeneration(job) =>
        if !op.phase.Active? then g
        else if op.epoch != g.generation then Failed(g, job) else WithPhase(g, job, Cleared)
      case Start(job) => if op.phase.Cleared? then WithPhase(g, job, Body) else g
      case Finish(job) => if op.phase.Body? then Failed(g, job) else g
      case Leave(job) => if op.phase.Leaving? then AfterLeave(g, job) else g
      case CancelFromOutside(job) => Cancelled(g, job)
  }

  // ---------------------------------------------------------------- the gate's own sections

  class AdmissionGate {
    var admitted: set<nat>
    var generation: nat
    var stops: nat

    /** This object is the monitor-protected part of a gate state. */
    ghost predicate Is(g: Gate)
      reads this
    {
      admitted == g.ops.Keys && generation == g.generation && stops == g.stops
    }

    constructor ()
      ensures Is(IDLE)
    {
      admitted, generation, stops := {}, 0, 0;
    }

    /** The first monitor section: refusal, or admission with the jobs a STOP must cancel. */
    method Admit(ghost g: Gate, job: nat, stop: bool) returns (epoch: Option<nat>, cancelled: set<nat>)
      requires Is(g) && job !in g.seen
      modifies this
      ensures Is(AfterEnter(g, job, stop)) && epoch.Some? == !Refuses(g, stop)
      ensures epoch.Some? ==>
                AfterEnter(g, job, stop).ops[job] == Op(stop, epoch.value, Cancelling, false, cancelled)
    {
      if !stop && stops > 0 {
        return None, {};
      }
      cancelled := if stop then admitted else {};
      if stop {
        generation := generation + 1;
        stops := stops + 1;
      }
      epoch := Some(generation);
      admitted := admitted + {job};
    }

    /** The second monitor section: has a STOP been admitted since? */
    method Current(ghost g: Gate, job: nat, epoch: nat) returns (current: bool)
      requires Is(g) && job in g.ops && g.ops[job].phase.Active? && g.ops[job].epoch == epoch
      ensures Step(g, CheckGeneration(job)).ops[job].phase == if current then Cleared else Leaving
    {
      current := epoch == generation;
    }

    /** The finally block. */
    method Remove(ghost g: Gate, job: nat, stop: bool)
      requires Is(g) && job in g.ops && g.ops[job].phase.Leaving? && g.ops[job].stop == stop && (stop ==> g.stops > 0)
      modifies this
      ensures Is(Step(g, Leave(job)))
    {
      admitted := admitted - {job};
      if stop {
        stops := stops - 1;
      }
    }
  }

  // ---------------------------------------------------------------- the invariant

  function StopJobs(ops: map<nat, Op>): set<nat> { set j | j in ops && ops[j].stop }

  predicate Locked(p: Phase) { p.Holding? || p.Active? || p.Cleared? || p.Body? }

  /** The transport lock has its one holder, who is inside. */
  predicate LockSane(g: Gate)
  {
    && (g.holder.Some? ==> g.holder.value in g.ops)
    && (forall j :: j in g.ops ==> (Locked(g.ops[j].phase) <==> g.holder == Some(j)))
  }

  /** The counters match the admitted operations. */
  predicate Sane(g: Gate)
  {
    && LockSane(g)
    && (forall j :: j in g.ops ==> j in g.seen && g.ops[j].epoch <= g.generation)
    && g.stops == |StopJobs(g.ops)|
  }

  /** Whatever is not STOP was admitted before every STOP still inside. */
  predicate StopsAreNewer(g: Gate)
  {
    forall o, s :: o in g.ops && s in g.ops && !g.ops[o].stop && g.ops[s].stop ==> g.ops[o].epoch < g.ops[s].epoch
  }

  lemma StopJobsGrow(ops: map<nat, Op>, job: nat, op: Op)
    requires job !in ops
    ensures |StopJobs(ops[job := op])| == |StopJobs(ops)| + if op.stop then 1 else 0
  {
    assert StopJobs(ops[job := op]) == StopJobs(ops) + if op.stop then {job} else {};
  }

  lemma StopJobsShrink(ops: map<nat, Op>, job: nat)
    requires job in ops
    ensures |StopJobs(ops - {job})| == |StopJobs(ops)| - if ops[job].stop then 1 else 0
    ensures ops[job].stop ==> |StopJobs(ops)| > 0
  {
    assert StopJobs(ops - {job}) == StopJobs(ops) - {job};
    if ops[job].stop {
      assert job in StopJobs(ops);
    }
  }

  lemma NoStopJobs(ops: map<nat, Op>)
    requires |StopJobs(ops)| == 0
    ensures forall s :: s in ops ==> !ops[s].stop
  {
    forall s | s in ops
      ensures !ops[s].stop
    {
      assert s !in StopJobs(ops);
    }
  }

  lemma EnterKeepsSane(g: Gate, job: nat, stop: bool)
    requires Sane(g) && StopsAreNewer(g)
    ensures var h := AfterEnter(g, job, stop); Sane(h) && StopsAreNewer(h)
  {
    hide StopJobs;
    var h := AfterEnter(g, job, stop);
    if job !in g.seen && !Refuses(g, stop) {
      StopJobsGrow(g.ops, job, h.ops[job]);
      if !stop {
        NoStopJobs(g.ops);
      }
    }
  }

  /** A step other than entering and leaving: same operations of the same kind and epoch. */
  predicate SameOps(g: Gate, h: Gate)
  {
    && h.ops.Keys == g.ops.Keys && h.generation == g.generation && h.stops == g.stops && h.seen == g.seen
    && (forall j :: j in g.ops ==> h.ops[j].stop == g.ops[j].stop && h.ops[j].epoch == g.ops[j].epoch)
  }

  lemma SameOpsSameStops(g: Gate, h: Gate)
    requires SameOps(g, h)
    ensures StopJobs(h.ops) == StopJobs(g.ops)
  {
  }

  lemma OthersKeepOps(g: Gate, e: Event)
    requires !e.Enter? && !e.Leave?
    ensures SameOps(g, Step(g, e))
  {
  }

  lemma OthersKeepLock(g: Gate, e: Event)
    requires LockSane(g) && !e.Enter? && !e.Leave?
    ensures LockSane(Step(g, e))
  {
  }

  lemma OthersKeepSane(g: Gate, e: Event)
    requires Sane(g) && StopsAreNewer(g) && !e.Enter?
    ensures var h := Step(g, e); Sane(h) && StopsAreNewer(h)
  {
    hide StopJobs;
    if e.Leave? {
      if e.job in g.ops {
        StopJobsShrink(g.ops, e.job);
      }
    } else {
      hide Step;
      assert LockSane(g);
      OthersKeepOps(g, e);
      OthersKeepLock(g, e);
      SameOpsSameStops(g, Step(g, e));
    }
  }

  function StateAt(g: Gate, es: seq<Event>, k: nat): Gate
    requires k <= |es|
  {
    if k == 0 then g else Step(StateAt(g, es, k - 1), es[k - 1])
  }

  lemma {:induction false} RunKeepsSane(g: Gate, es: seq<Event>, k: nat)
    requires k <= |es| && Sane(g) && StopsAreNewer(g)
    ensures Sane(StateAt(g, es, k)) && StopsAreNewer(StateAt(g, es, k))
  {
    hide Step, Sane, StopsAreNewer;
    if k > 0 {
      RunKeepsSane(g, es, k - 1);
      if es[k - 1].Enter? {
        EnterIsStep(StateAt(g, es, k - 1), es[k - 1]);
        EnterKeepsSane(StateAt(g, es, k - 1), es[k - 1].job, es[k - 1].stop);
      } else {
        OthersKeepSane(StateAt(g, es, k - 1), es[k - 1]);
      }
    }
  }

  lemma EnterIsStep(g: Gate, e: Event)
    requires e.Enter?
    ensures Step(g, e) == AfterEnter(g, e.job, e.stop)
  {
  }

  lemma IdleIsSane()
    ensures Sane(IDLE) && StopsAreNewer(IDLE)
  {
    assert StopJobs(map[]) == {};
  }

  // ---------------------------------------------------------------- guarantees

  /** Bodies never overlap, in any run. */
  lemma BodiesNeverOverlap(es: seq<Event>, k: nat, i: nat, j: nat)
    requires k <= |es|
    requires var g := StateAt(IDLE, es, k); i in g.ops && j in g.ops && g.ops[i].phase.Body? && g.ops[j].phase.Body?
    ensures i == j
  {
    hide Step;
    IdleIsSane();
    RunKeepsSane(IDLE, es, k);
  }

  /** Event k makes the body of job o start. */
  predicate Starts(g: Gate, es: seq<Event>, k: nat, o: nat)
    requires k < |es|
  {
    var h := StateAt(g, es, k);
    es[k] == Start(o) && o in h.ops && h.ops[o].phase.Cleared?
  }

  /** An operation that was inside, or had been, before a STOP, and had not passed its generation check by then. */
  predicate Overtaken(g: Gate, o: nat, floor: nat)
  {
    && o in g.seen && floor <= g.generation
    && (o in g.ops ==> g.ops[o].epoch < floor && !g.ops[o].phase.Cleared?)
  }

  lemma StaysOvertaken(g: Gate, e: Event, o: nat, floor: nat)
    requires Overtaken(g, o, floor)
    ensures Overtaken(Step(g, e), o, floor)
  {
  }

  lemma {:induction false} OvertakenAlways(g: Gate, es: seq<Event>, k: nat, o: nat, floor: nat)
    requires k <= |es| && Overtaken(g, o, floor)
    ensures Overtaken(StateAt(g, es, k), o, floor)
  {
    hide Step, Overtaken;
    if k > 0 {
      OvertakenAlways(g, es, k - 1, o, floor);
      StaysOvertaken(StateAt(g, es, k - 1), es[k - 1], o, floor);
    }
  }

  /** A STOP is admitted whenever its job is new. */
  predicate StopEnters(g: Gate, s: nat) { s !in g.seen }

  predicate NoneCleared(g: Gate) { forall o :: o in g.ops ==> !g.ops[o].phase.Cleared? }

  /** An operation admitted before a STOP, a waiting earlier STOP included, starts its body afterwards. */
  ghost predicate SomeOvertakenStarts(g: Gate, s: nat)
  {
    exists es: seq<Event>, k: nat, o: nat :: k < |es| && o in g.ops && Starts(Step(g, Enter(s, true)), es, k, o)
  }

  lemma StopOvertakes(g: Gate, s: nat, es: seq<Event>, k: nat, o: nat)
    requires Sane(g) && StopEnters(g, s) && o in g.ops && !g.ops[o].phase.Cleared? && k < |es|
    ensures !Starts(Step(g, Enter(s, true)), es, k, o)
  {
    var h := Step(g, Enter(s, true));
    assert Overtaken(h, o, h.generation);
    OvertakenAlways(h, es, k, o, h.generation);
  }

  lemma ClearedStillStarts(g: Gate, s: nat, o: nat)
    requires Sane(g) && StopEnters(g, s) && o in g.ops && g.ops[o].phase.Cleared?
    ensures Starts(Step(g, Enter(s, true)), [Start(o)], 0, o)
  {
    assert o in g.seen;
  }

  /**
   * "Once a STOP is admitted, no operation admitted before it ever starts its body" holds exactly when, at the moment
   * of admission, no operation stands between its generation check and its body.
   */
  lemma StopPreemptsIffNoneCleared(g: Gate, s: nat)
    requires Sane(g) && StopEnters(g, s)
    ensures !SomeOvertakenStarts(g, s) <==> NoneCleared(g)
  {
    hide Step;
    if NoneCleared(g) {
      forall es: seq<Event>, k: nat, o: nat | k < |es| && o in g.ops
        ensures !Starts(Step(g, Enter(s, true)), es, k, o)
      {
        StopOvertakes(g, s, es, k, o);
      }
    } else {
      var o :| o in g.ops && g.ops[o].phase.Cleared?;
      ClearedStillStarts(g, s, o);
    }
  }

  /** The gap lets at most one operation through: the one that holds the transport when the STOP is admitted. */
  lemma OnlyTheHolderStarts(g: Gate, s: nat, es: seq<Event>, k: nat, o: nat)
    requires Sane(g) && StopEnters(g, s) && o in g.ops && k < |es| && Starts(Step(g, Enter(s, true)), es, k, o)
    ensures g.holder == Some(o) && g.ops[o].phase.Cleared? && o in Step(g, Enter(s, true)).ops[s].victims
  {
    hide Step;
    if !g.ops[o].phase.Cleared? {
      StopOvertakes(g, s, es, k, o);
      assert false;
    }
    EnterIsStep(g, Enter(s, true));
  }

  /** A run in which the gap is hit: the check passes, STOP is admitted, and the body still starts. */
  lemma GapIsReachable() returns (es: seq<Event>)
    ensures |es| == 7 && es[5] == Enter(2, true) && Starts(IDLE, es, 6, 1)
  {
    es := [Enter(1, false), CancelsDone(1), Acquire(1), EnsureActive(1), CheckGeneration(1), Enter(2, true), Start(1)];
    var g1 := StateAt(IDLE, es, 1);
    assert g1.ops[1] == Op(false, 0, Cancelling, false, {}) && g1.stops == 0 && g1.generation == 0;
    var g2 := StateAt(IDLE, es, 2);
    assert g2 == WithPhase(g1, 1, Waiting);
    var g3 := StateAt(IDLE, es, 3);
    assert g3.ops[1].phase.Holding? && g3.generation == 0;
    var g4 := StateAt(IDLE, es, 4);
    assert g4.ops[1].phase.Active?;
    var g5 := StateAt(IDLE, es, 5);
    assert g5.ops[1].phase.Cleared?;
    assert StateAt(IDLE, es, 6) == Step(g5, Enter(2, true));
  }

  /** While a STOP is inside and nothing was cleared when it came, no other kind of body starts. */
  predicate Quiet(g: Gate, s: nat)
  {
    s in g.ops && g.ops[s].stop && forall o :: o in g.ops && !g.ops[o].stop ==> !g.ops[o].phase.Cleared?
  }

  lemma StaysQuiet(g: Gate, e: Event, s: nat)
    requires Sane(g) && StopsAreNewer(g) && Quiet(g, s) && s in Step(g, e).ops
    ensures Quiet(Step(g, e), s)
  {
    if e.CheckGeneration? && e.job in g.ops && !g.ops[e.job].stop {
      assert g.ops[e.job].epoch < g.ops[s].epoch <= g.generation;
    }
    if e.Enter? && e.job in g.seen {
      assert Step(g, e) == g;
    }
  }

  lemma {:induction false} QuietWhileStopInside(g: Gate, s: nat, es: seq<Event>, k: nat)
    requires Sane(g) && StopsAreNewer(g) && Quiet(g, s) && k <= |es|
    requires forall m :: 0 <= m <= k ==> s in StateAt(g, es, m).ops
    ensures Quiet(StateAt(g, es, k), s)
  {
    hide Step, Quiet, Sane, StopsAreNewer;
    if k > 0 {
      QuietWhileStopInside(g, s, es, k - 1);
      assert s in StateAt(g, es, k).ops;
      RunKeepsSane(g, es, k - 1);
      StaysQuiet(StateAt(g, es, k - 1), es[k - 1], s);
    }
  }

  /** From its admission until it leaves, a STOP lets no body of another kind start. */
  lemma StopExcludesOthers(g: Gate, s: nat, es: seq<Event>, k: nat, o: nat)
    requires Sane(g) && StopsAreNewer(g) && StopEnters(g, s) && NoneCleared(g) && k < |es|
    requires forall m :: 0 <= m <= k ==> s in StateAt(Step(g, Enter(s, true)), es, m).ops
    requires var h := StateAt(Step(g, Enter(s, true)), es, k); o in h.ops && !h.ops[o].stop
    ensures !Starts(Step(g, Enter(s, true)), es, k, o)
  {
    var h := Step(g, Enter(s, true));
    EnterKeepsSane(g, s, true);
    assert Quiet(h, s);
    QuietWhileStopInside(h, s, es, k);
  }

  // ---------------------------------------------------------------- cancellation

  /** A cancelled operation that has not passed its own check yet. */
  predicate Doomed(g: Gate, o: nat)
  {
    o in g.seen && (o in g.ops ==> g.ops[o].cancelled && g.ops[o].phase in {Cancelling, Waiting, Holding, Leaving})
  }

  lemma StaysDoomed(g: Gate, e: Event, o: nat)
    requires Doomed(g, o)
    ensures Doomed(Step(g, e), o)
  {
  }

  /** An operation cancelled before it has the transport and has looked never starts its body. */
  lemma {:induction false} CancelledNeverStarts(g: Gate, es: seq<Event>, k: nat, o: nat)
    requires k < |es| && Doomed(g, o)
    ensures Doomed(StateAt(g, es, k), o) && !Starts(g, es, k, o)
    decreases k
  {
    hide Step;
    if k > 0 {
      CancelledNeverStarts(g, es, k - 1, o);
      StaysDoomed(StateAt(g, es, k - 1), es[k - 1], o);
    }
  }

  /** In particular one that is cancelled from outside while it waits, or before it has looked. */
  lemma OutsideCancelHolds(g: Gate, es: seq<Event>, k: nat, o: nat)
    requires Sane(g) && k < |es| && o in g.ops && g.ops[o].phase in {Cancelling, Waiting, Holding}
    ensures !Starts(Step(g, CancelFromOutside(o)), es, k, o)
  {
    var h := Step(g, CancelFromOutside(o));
    assert Doomed(h, o);
    CancelledNeverStarts(h, es, k, o);
  }

  /** While it waits for the transport it can leave at once, whoever holds it. */
  lemma CancelledCanLeave(g: Gate, o: nat)
    requires o in g.ops && g.ops[o].cancelled && g.ops[o].phase.Waiting?
    ensures o !in Step(Step(g, GiveUp(o)), Leave(o)).ops
  {
  }

  /** Those a STOP has to cancel: still to do while it is at it, and done once it waits for the transport. */
  predicate Sweeping(g: Gate, s: nat, before: set<nat>)
  {
    && s in g.seen && before <= g.seen && s !in before
    && (s in g.ops ==> forall o :: o in before && o in g.ops ==>
          g.ops[o].cancelled || (g.ops[s].phase.Cancelling? && o in g.ops[s].victims))
  }

  lemma StaysSweeping(g: Gate, e: Event, s: nat, before: set<nat>)
    requires Sweeping(g, s, before)
    ensures Sweeping(Step(g, e), s, before)
  {
  }

  lemma {:induction false} SweepsThrough(g: Gate, es: seq<Event>, k: nat, s: nat, before: set<nat>)
    requires k <= |es| && Sweeping(g, s, before)
    ensures Sweeping(StateAt(g, es, k), s, before)
    decreases k
  {
    hide Step, Sweeping;
    if k > 0 {
      SweepsThrough(g, es, k - 1, s, before);
      StaysSweeping(StateAt(g, es, k - 1), es[k - 1], s, before);
    }
  }

  /** A STOP waits for the transport only once every operation it found inside is cancelled or gone. */
  lemma StopCancelsFirst(g: Gate, s: nat, es: seq<Event>, k: nat, o: nat)
    requires Sane(g) && StopEnters(g, s) && k <= |es| && o in g.ops
    requires var h := StateAt(Step(g, Enter(s, true)), es, k); s in h.ops && !h.ops[s].phase.Cancelling?
    ensures var h := StateAt(Step(g, Enter(s, true)), es, k); o in h.ops ==> h.ops[o].cancelled
  {
    var a := Step(g, Enter(s, true));
    assert Sweeping(a, s, g.ops.Keys);
    SweepsThrough(a, es, k, s, g.ops.Keys);
  }
}
