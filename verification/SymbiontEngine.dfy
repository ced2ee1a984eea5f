/**
 * main/symbiont_engine.h: one request in flight to the printer's fans, and a full observation before every write.
 * Times in milliseconds.
 */
module SymbiontEngine {
  import opened Common

  const TIMEOUT_MS := 2000
  const FIRST_ID := -1000
  const LAST_ID := -1_000_000_000
  const SPEED_TOLERANCE := 1.1

  datatype Status = AutoOrIdle | Disconnected | UnsupportedFan | TimedOut | IdExhausted | EncodingError | CommandError |
                    InvalidData | TopCoverFault | Verifying | Correcting | Verified

  /** What the engine may do next: observe, or write one of the two fans. */
  datatype Phase = Observe | WriteAux | WriteTop

  datatype Engine = Engine(sequence: int, pending: int, phase: Phase, demand: int, pendingDemand: int, last: Phase,
                           sentMs: int, dueMs: int, active: bool, top: bool, queryTop: bool, topRequired: bool,
                           status: Status)

  /** A packet handed to the socket. */
  datatype Packet = Packet(id: int, phase: Phase, demand: int, withTop: bool, sentMs: int)

  /** The fields of a query result; None is a missing or ill-typed field. */
  datatype Observation = Observation(ready: bool, aux: Option<real>, detected: Option<bool>, alarm: Option<bool>,
                                     fault: Option<bool>, exhaust: Option<real>)

  datatype Reply = Reply(id: Option<int>, error: bool, result: bool, success: bool, seen: Observation)

  /** The arguments of one poll. */
  datatype Poll = Poll(active: bool, connected: bool, exactAux: bool, hasTop: bool, demand: int, nowMs: int, fits: bool)

  const FRESH := Engine(0, 0, Observe, 0, 0, Observe, 0, 0, false, false, false, false, AutoOrIdle)

  // ---------------------------------------------------------------- specification functions

  predicate Wanted(p: Poll) { p.active && p.connected && p.exactAux }

  function Deactivated(s: Engine, p: Poll): Engine
  {
    s.(active := false, pending := 0, phase := Observe, top := false, topRequired := false,
       status := if !p.active then AutoOrIdle else if !p.connected then Disconnected else UnsupportedFan)
  }

  /** Activation, demand change, timeout and stale observation, in the source's order. */
  function Prepared(s: Engine, p: Poll): Engine
  {
    var a := if s.active then s else s.(active := true, dueMs := 0, phase := Observe);
    var b := if a.demand != p.demand then a.(demand := p.demand, pending := 0, phase := Observe, dueMs := 0) else a;
    if b.pending != 0 && p.nowMs - b.sentMs >= TIMEOUT_MS
    then b.(pending := 0, phase := Observe, status := TimedOut, dueMs := p.nowMs + 1000)
    else b
  }

  function Unstale(s: Engine, nowMs: int): Engine
  {
    if !s.phase.Observe? && nowMs - s.sentMs > TIMEOUT_MS then s.(phase := Observe) else s
  }

  /** The packet is built and accounted for, or does not fit the buffer. */
  function Emitted(s: Engine, p: Poll): (Engine, Option<Packet>)
  {
    var id := (if s.sequence == 0 then FIRST_ID else s.sequence) - 1;
    var a := s.(sequence := id, queryTop := if s.phase.Observe? then p.hasTop else s.queryTop);
    if !p.fits then (a.(phase := Observe, status := EncodingError), None)
    else
      (a.(last := if s.phase.Observe? then s.last else s.phase, pending := id, pendingDemand := p.demand,
          sentMs := p.nowMs),
       Some(Packet(id, s.phase, p.demand, p.hasTop, p.nowMs)))
  }

  function AfterPoll(s: Engine, p: Poll): (Engine, Option<Packet>)
  {
    if !Wanted(p) then (Deactivated(s, p), None)
    else if p.demand < 0 || p.demand > 100 then (s, None)
    else
      var a := Prepared(s, p);
      if a.pending != 0 || p.nowMs < a.dueMs then (a, None)
      else
        var b := Unstale(a, p.nowMs);
        if b.sequence <= LAST_ID then (b.(status := IdExhausted), None) else Emitted(b, p)
  }

  predicate Differs(speed: real, demand: int)
  {
    var d := speed * 100.0 - demand as real;
    d > SPEED_TOLERANCE || -d > SPEED_TOLERANCE
  }

  /** Ready, with a usable speed and, when the top cover was asked about, all three of its flags. */
  predicate Complete(o: Observation, withTop: bool)
  {
    o.ready && o.aux.Some? && (withTop ==> o.detected.Some? && o.alarm.Some? && o.fault.Some?)
  }

  predicate HasTop(o: Observation, withTop: bool) { withTop && o.detected == Some(true) }

  predicate AlarmFree(o: Observation, withTop: bool)
  {
    withTop ==> o.alarm != Some(true) && o.fault != Some(true)
  }

  function Choose(auxDiffers: bool, topDiffers: bool, last: Phase): Phase
  {
    if topDiffers && (!auxDiffers || last.WriteAux?) then WriteTop else if auxDiffers then WriteAux else Observe
  }

  /** Judging a full observation taken at the current demand. */
  function Judged(s: Engine, o: Observation, nowMs: int): Engine
  {
    if !Complete(o, s.queryTop) then s.(status := InvalidData)
    else
      var top := HasTop(o, s.queryTop);
      var a := s.(top := top, topRequired := s.topRequired || top);
      if (a.topRequired && !top) || !AlarmFree(o, s.queryTop) then a.(status := TopCoverFault)
      else if top && o.exhaust.None? then a.(status := InvalidData)
      else
        var phase := Choose(Differs(o.aux.value, s.demand), top && Differs(o.exhaust.value, s.demand), s.last);
        if phase.Observe? then a.(phase := phase, status := Verified)
        else a.(phase := phase, status := Correcting, dueMs := nowMs)
  }

  predicate Matches(s: Engine, r: Reply) { s.active && s.pending != 0 && r.id == Some(s.pending) }

  function AfterResponse(s: Engine, r: Reply, nowMs: int): Engine
  {
    if !Matches(s, r) then s
    else
      var a := s.(pending := 0, dueMs := nowMs + 500);
      if r.error || !r.result then a.(phase := Observe, status := CommandError, dueMs := nowMs + 2000)
      else if s.pendingDemand != s.demand then a.(phase := Observe)
      else if !s.phase.Observe? then
        a.(phase := Observe, status := if r.success then Verifying else CommandError, dueMs := nowMs)
      else Judged(a, r.seen, nowMs)
  }

  /** A partial notification only invalidates what was observed. */
  function AfterNotify(s: Engine, relevant: bool, nowMs: int): Engine
  {
    if s.active && relevant then s.(pending := 0, phase := Observe, dueMs := nowMs) else s
  }

  /** The socket is gone (main/moonraker_client.c). */
  function AfterDisconnect(s: Engine): Engine
  {
    s.(active := false, pending := 0, phase := Observe, status := Disconnected)
  }

  // ---------------------------------------------------------------- the engine itself

  class Supervisor {
    var sequence: int
    var pending: int
    var phase: Phase
    var demand: int
    var pendingDemand: int
    var last: Phase
    var sentMs: int
    var dueMs: int
    var active: bool
    var top: bool
    var queryTop: bool
    var topRequired: bool
    var status: Status

    ghost function View(): Engine
      reads this
    {
      Engine(sequence, pending, phase, demand, pendingDemand, last, sentMs, dueMs, active, top, queryTop, topRequired,
             status)
    }

    constructor ()
      ensures View() == FRESH
    {
      sequence, pending, phase, demand, pendingDemand, last := 0, 0, Observe, 0, 0, Observe;
      sentMs, dueMs, active, top, queryTop, topRequired := 0, 0, false, false, false, false;
      status := AutoOrIdle;
    }

    method Notify(relevant: bool, nowMs: int)
      modifies this
      ensures View() == AfterNotify(old(View()), relevant, nowMs)
    {
      if !active {
        return;
      }
      if relevant {
        pending, phase, dueMs := 0, Observe, nowMs;
      }
    }

    method Response(r: Reply, nowMs: int)
      modifies this
      ensures View() == AfterResponse(old(View()), r, nowMs)
    {
      if !active || pending == 0 || r.id != Some(pending) {
        return;
      }
      pending, dueMs := 0, nowMs + 500;
      if r.error || !r.result {
        phase, status, dueMs := Observe, CommandError, nowMs + 2000;
        return;
      }
      if pendingDemand != demand {
        phase := Observe;
        return;
      }
      if !phase.Observe? {
        status := if r.success then Verifying else CommandError;
        phase, dueMs := Observe, nowMs;
        return;
      }
      Judge(r.seen, nowMs);
    }

    method Judge(o: Observation, nowMs: int)
      requires phase.Observe?
      modifies this
      ensures View() == Judged(old(View()), o, nowMs)
    {
      if !o.ready || o.aux.None? || (queryTop && (o.detected.None? || o.alarm.None? || o.fault.None?)) {
        status := InvalidData;
        return;
      }
      top := queryTop && o.detected == Some(true);
      if top {
        topRequired := true;
      }
      if (topRequired && !top) || (queryTop && (o.alarm == Some(true) || o.fault == Some(true))) {
        status := TopCoverFault;
        return;
      }
      if top && o.exhaust.None? {
        status := InvalidData;
        return;
      }
      var auxDiffers := Differs(o.aux.value, demand);
      var topDiffers := top && Differs(o.exhaust.value, demand);
      if topDiffers && (!auxDiffers || last.WriteAux?) {
        phase := WriteTop;
      } else if auxDiffers {
        phase := WriteAux;
      }
      status := if phase.Observe? then Verified else Correcting;
      if !phase.Observe? {
        dueMs := nowMs;
      }
    }

    method Next(p: Poll) returns (packet: Option<Packet>)
      modifies this
      ensures (View(), packet) == AfterPoll(old(View()), p)
    {
      packet := None;
      if !p.active || !p.connected || !p.exactAux {
        active, pending, phase, top, topRequired := false, 0, Observe, false, false;
        status := if !p.active then AutoOrIdle else if !p.connected then Disconnected else UnsupportedFan;
        return;
      }
      if p.demand < 0 || p.demand > 100 {
        return;
      }
      if !active {
        active, dueMs, phase := true, 0, Observe;
      }
      if demand != p.demand {
        demand, pending, phase, dueMs := p.demand, 0, Observe, 0;
      }
      if pending != 0 && p.nowMs - sentMs >= TIMEOUT_MS {
        pending, phase, status, dueMs := 0, Observe, TimedOut, p.nowMs + 1000;
      }
      if pending != 0 || p.nowMs < dueMs {
        return;
      }
      if !phase.Observe? && p.nowMs - sentMs > TIMEOUT_MS {
        phase := Observe;
      }
      if sequence <= LAST_ID {
        status := IdExhausted;
        return;
      }
      packet := Emit(p);
    }

    method Emit(p: Poll) returns (packet: Option<Packet>)
      modifies this
      ensures (View(), packet) == Emitted(old(View()), p)
    {
      if sequence == 0 {
        sequence := FIRST_ID;
      }
      sequence := sequence - 1;
      var id := sequence;
      if phase.Observe? {
        queryTop := p.hasTop;
      }
      if !p.fits {
        phase, status := Observe, EncodingError;
        return None;
      }
      if !phase.Observe? {
        last := phase;
      }
      pending, pendingDemand, sentMs := id, p.demand, p.nowMs;
      packet := Some(Packet(id, phase, p.demand, p.hasTop, p.nowMs));
    }
  }

  // ---------------------------------------------------------------- runs

  datatype Event =
    | Polled(poll: Poll)
    | Answered(reply: Reply, nowMs: int)
    | Notified(relevant: bool, nowMs: int)
    | Dropped

  function Step(s: Engine, e: Event): Engine
  {
    match e
    case Polled(p) => AfterPoll(s, p).0
    case Answered(r, nowMs) => AfterResponse(s, r, nowMs)
    case Notified(relevant, nowMs) => AfterNotify(s, relevant, nowMs)
    case Dropped => AfterDisconnect(s)
  }

  function Output(s: Engine, e: Event): Option<Packet>
  {
    if e.Polled? then AfterPoll(s, e.poll).1 else None
  }

  function StateAt(es: seq<Event>, k: nat): Engine
    requires k <= |es|
  {
    if k == 0 then FRESH else Step(StateAt(es, k - 1), es[k - 1])
  }

  function PacketAt(es: seq<Event>, k: nat): Option<Packet>
    requires k < |es|
  {
    Output(StateAt(es, k), es[k])
  }

  // ---------------------------------------------------------------- request identities

  /** Ids of emitted packets strictly decrease, so no reply to an older packet can match the pending one. */
  predicate IdsSane(s: Engine)
  {
    && (s.sequence == 0 || s.sequence < FIRST_ID) && (s.pending == 0 || (s.pending == s.sequence && s.active))
    && (!s.active ==> s.phase.Observe?)
  }

  /** Getting ready for a poll drops the pending request or keeps it, and leaves the counter alone. */
  lemma PreparedIds(s: Engine, p: Poll)
    requires IdsSane(s)
    ensures var a := Prepared(s, p);
            IdsSane(a) && a.sequence == s.sequence && a.active && (a.pending == 0 || a.pending == s.pending)
  {
  }

  lemma EmittedIds(s: Engine, p: Poll)
    requires IdsSane(s) && s.active && s.pending == 0
    ensures var (t, packet) := Emitted(s, p);
            && IdsSane(t) && t.sequence < s.sequence
            && (packet.Some? ==> packet.value.id == t.sequence == t.pending)
  {
  }

  lemma PollKeepsIds(s: Engine, p: Poll)
    requires IdsSane(s)
    ensures var (t, packet) := AfterPoll(s, p);
            && IdsSane(t) && t.sequence <= s.sequence
            && (packet.Some? ==> packet.value.id == t.sequence == t.pending < s.sequence)
  {
    hide Prepared, Emitted;
    PreparedIds(s, p);
    var a := Prepared(s, p);
    if a.pending == 0 {
      EmittedIds(Unstale(a, p.nowMs), p);
    }
  }

  lemma StepKeepsIds(s: Engine, e: Event)
    requires IdsSane(s)
    ensures var t := Step(s, e);
            && IdsSane(t) && t.sequence <= s.sequence
            && (Output(s, e).Some? ==> Output(s, e).value.id == t.sequence == t.pending < s.sequence)
  {
    hide AfterPoll, Judged;
    if e.Polled? {
      PollKeepsIds(s, e.poll);
    } else if e.Answered? {
      JudgedIds(s.(pending := 0, dueMs := e.nowMs + 500), e.reply.seen, e.nowMs);
    }
  }

  lemma JudgedIds(s: Engine, o: Observation, nowMs: int)
    ensures var t := Judged(s, o, nowMs);
            t.sequence == s.sequence && t.pending == s.pending && t.active == s.active && t.last == s.last
  {
  }

  lemma {:induction false} IdsFall(es: seq<Event>, j: nat, k: nat)
    requires j <= k <= |es|
    ensures IdsSane(StateAt(es, k)) && StateAt(es, k).sequence <= StateAt(es, j).sequence
    decreases k
  {
    hide Step, IdsSane;
    if k == 0 {
      assert IdsSane(FRESH) by { FreshIsSane(); }
    } else {
      IdsFall(es, if j < k then j else k - 1, k - 1);
      StepKeepsIds(StateAt(es, k - 1), es[k - 1]);
    }
  }

  lemma FreshIsSane()
    ensures IdsSane(FRESH)
  {
  }

  /** Later packets carry smaller ids. */
  lemma PacketIdsDecrease(es: seq<Event>, j: nat, k: nat)
    requires j < k < |es| && PacketAt(es, j).Some? && PacketAt(es, k).Some?
    ensures PacketAt(es, k).value.id < PacketAt(es, j).value.id
  {
    hide Step, IdsSane, Output;
    IdsFall(es, j, j);
    IdsFall(es, j + 1, k);
    StepKeepsIds(StateAt(es, j), es[j]);
    StepKeepsIds(StateAt(es, k), es[k]);
  }

  /** A reply to any packet but the one in flight changes nothing. */
  lemma LateReplyIsIgnored(es: seq<Event>, j: nat, k: nat, r: Reply, nowMs: int)
    requires j < k <= |es| && PacketAt(es, j).Some? && r.id == Some(PacketAt(es, j).value.id)
    requires exists m :: j < m < k && PacketAt(es, m).Some?
    ensures AfterResponse(StateAt(es, k), r, nowMs) == StateAt(es, k)
  {
    hide Step, Output;
    var m :| j < m < k && PacketAt(es, m).Some?;
    PacketIdsDecrease(es, j, m);
    IdsFall(es, m, m);
    StepKeepsIds(StateAt(es, m), es[m]);
    IdsFall(es, m + 1, k);
  }

  // ---------------------------------------------------------------- no write without a fresh observation

  /** Event j emitted packet q, and nothing was emitted after it before event k. */
  predicate LatestPacket(es: seq<Event>, j: nat, k: nat, q: Packet)
    requires k <= |es|
  {
    j < k && PacketAt(es, j) == Some(q) && forall m :: j < m < k ==> PacketAt(es, m).None?
  }

  /** What the engine remembers of the request in flight. */
  predicate Remembers(s: Engine, q: Packet)
  {
    && q.id == s.pending && q.sentMs == s.sentMs && q.demand == s.pendingDemand && q.phase == s.phase
    && (q.phase.Observe? ==> q.withTop == s.queryTop)
  }

  /** A speed (1.0 is full) more than 1.1 points off a demand in percent. */
  predicate FarOff(speed: real, demand: int)
  {
    speed * 100.0 > demand as real + 1.1 || speed * 100.0 < demand as real - 1.1
  }

  /** The observation shows a top cover. */
  predicate Shown(o: Observation, withTop: bool) { withTop && o.detected == Some(true) }

  /** Ready, with a speed; where asked for, a cover state without alarm or fault, and the speed of a cover in place. */
  predicate Sound(o: Observation, withTop: bool, topRequired: bool)
  {
    && o.ready && o.aux.Some? && (withTop ==> o.detected.Some? && o.alarm == Some(false) && o.fault == Some(false))
    && (topRequired ==> Shown(o, withTop)) && (Shown(o, withTop) ==> o.exhaust.Some?)
  }

  predicate TopFarOff(o: Observation, withTop: bool, demand: int)
    requires Shown(o, withTop) ==> o.exhaust.Some?
  {
    Shown(o, withTop) && FarOff(o.exhaust.value, demand)
  }

  lemma FarIsDifferent(speed: real, demand: int)
    ensures FarOff(speed, demand) == Differs(speed, demand)
  {
  }

  lemma TrueOrFalse(flag: Option<bool>)
    ensures flag.None? || flag == Some(true) || flag == Some(false)
  {
    match flag
    case None =>
    case Some(value) => assert value || !value;
  }

  /** The verdict on an observation. */
  lemma JudgedIs(s: Engine, o: Observation, nowMs: int)
    requires s.phase.Observe?
    ensures var a := Judged(s, o, nowMs);
            if Sound(o, s.queryTop, s.topRequired) then
              var auxOff, topOff := FarOff(o.aux.value, s.demand), TopFarOff(o, s.queryTop, s.demand);
              && a.phase == (if topOff && (!auxOff || s.last.WriteAux?) then WriteTop
                             else if auxOff then WriteAux else Observe)
              && a.status == (if auxOff || topOff then Correcting else Verified)
              && a.dueMs == (if auxOff || topOff then nowMs else s.dueMs)
            else
              && a.phase.Observe? && a.dueMs == s.dueMs && a.status in {InvalidData, TopCoverFault}
              && (o.ready && o.aux.Some? && s.queryTop && o.detected.Some? && o.alarm.Some? && o.fault.Some? ==>
                    (a.status.TopCoverFault? <==> o.alarm.value || o.fault.value ||
                                                  (s.topRequired && !o.detected.value)))
    ensures var a := Judged(s, o, nowMs);
            a.demand == s.demand && a.sentMs == s.sentMs && a.pending == s.pending
  {
    hide Differs, FarOff;
    TrueOrFalse(o.alarm);
    TrueOrFalse(o.fault);
    if o.aux.Some? {
      FarIsDifferent(o.aux.value, s.demand);
    }
    if o.exhaust.Some? {
      FarIsDifferent(o.exhaust.value, s.demand);
    }
  }

  /** A reply that authorises a write of the given fan at the demand of the query it answers. */
  predicate Authorises(s: Engine, q: Packet, r: Reply, phase: Phase)
  {
    var o := r.seen;
    && q.phase.Observe? && r.id == Some(q.id) && !r.error && r.result && s.demand == q.demand
    && Sound(o, q.withTop, s.topRequired)
    && var auxOff, topOff := FarOff(o.aux.value, q.demand), TopFarOff(o, q.withTop, q.demand);
    && (auxOff || topOff) && phase == if topOff && (!auxOff || s.last.WriteAux?) then WriteTop else WriteAux
  }

  lemma PollInFlight(s: Engine, p: Poll, q: Packet)
    requires IdsSane(s) && AfterPoll(s, p).0.pending != 0
    ensures var (t, packet) := AfterPoll(s, p);
            if packet.Some? then Remembers(t, packet.value)
            else t.pending == s.pending && (Remembers(s, q) ==> Remembers(t, q))
  {
  }

  lemma StepInFlight(s: Engine, e: Event, q: Packet)
    requires IdsSane(s) && Step(s, e).pending != 0
    ensures if Output(s, e).Some? then Remembers(Step(s, e), Output(s, e).value)
            else s.pending != 0 && (Remembers(s, q) ==> Remembers(Step(s, e), q))
  {
    hide AfterPoll, Judged;
    if e.Polled? {
      PollInFlight(s, e.poll, q);
    } else if e.Answered? {
      JudgedIds(s.(pending := 0, dueMs := e.nowMs + 500), e.reply.seen, e.nowMs);
    }
  }

  lemma {:induction false} InFlight(es: seq<Event>, k: nat) returns (j: nat, q: Packet)
    requires k <= |es| && StateAt(es, k).pending != 0
    ensures LatestPacket(es, j, k, q) && Remembers(StateAt(es, k), q)
    decreases k
  {
    hide Step, Output, Remembers;
    var s := StateAt(es, k - 1);
    IdsFall(es, k - 1, k - 1);
    if PacketAt(es, k - 1).Some? {
      j, q := k - 1, PacketAt(es, k - 1).value;
      StepInFlight(s, es[k - 1], q);
    } else {
      StepInFlight(s, es[k - 1], Packet(0, Observe, 0, false, 0));
      j, q := InFlight(es, k - 1);
      StepInFlight(s, es[k - 1], q);
    }
  }

  predicate Armed(s: Engine) { s.pending == 0 && !s.phase.Observe? }

  lemma PollStaysArmed(s: Engine, p: Poll)
    requires IdsSane(s) && Armed(AfterPoll(s, p).0)
    ensures var (t, packet) := AfterPoll(s, p);
            && packet.None? && Armed(s) && t.phase == s.phase && t.demand == s.demand && t.sentMs == s.sentMs
  {
  }

  lemma AnswerArms(s: Engine, r: Reply, nowMs: int, q: Packet)
    requires Armed(AfterResponse(s, r, nowMs)) && Matches(s, r) && Remembers(s, q)
    ensures var t := AfterResponse(s, r, nowMs);
            Authorises(s, q, r, t.phase) && t.demand == q.demand && t.sentMs == q.sentMs
  {
    hide Judged, Sound, FarOff, TopFarOff;
    if s.phase.Observe? {
      JudgedIs(s.(pending := 0, dueMs := nowMs + 500), r.seen, nowMs);
    }
  }

  /** An engine about to write has a matching, complete, alarm-free observation as its latest exchange. */
  lemma {:induction false} ArmedByObservation(es: seq<Event>, k: nat) returns (j: nat, r: nat, q: Packet)
    requires k <= |es| && Armed(StateAt(es, k))
    ensures LatestPacket(es, j, k, q) && j < r < k && es[r].Answered?
    ensures Authorises(StateAt(es, r), q, es[r].reply, StateAt(es, k).phase)
    ensures StateAt(es, k).demand == q.demand && StateAt(es, k).sentMs == q.sentMs
    decreases k
  {
    hide AfterPoll, AfterResponse, Authorises, Remembers, Matches;
    var s, e := StateAt(es, k - 1), es[k - 1];
    IdsFall(es, k - 1, k - 1);
    if e.Answered? && Matches(s, e.reply) {
      MatchedIsPending(s, e.reply);
      j, q := InFlight(es, k - 1);
      r := k - 1;
      AnswerArms(s, e.reply, e.nowMs, q);
    } else {
      if e.Polled? {
        PollStaysArmed(s, e.poll);
      } else if e.Answered? {
        UnmatchedChangesNothing(s, e.reply, e.nowMs);
      }
      j, r, q := ArmedByObservation(es, k - 1);
    }
  }

  lemma MatchedIsPending(s: Engine, r: Reply)
    requires Matches(s, r)
    ensures s.pending != 0
  {
  }

  lemma UnmatchedChangesNothing(s: Engine, r: Reply, nowMs: int)
    requires !Matches(s, r)
    ensures AfterResponse(s, r, nowMs) == s
  {
  }

  lemma PollWrites(s: Engine, p: Poll)
    requires AfterPoll(s, p).1.Some? && !AfterPoll(s, p).1.value.phase.Observe?
    ensures var w := AfterPoll(s, p).1.value;
            Armed(s) && w.phase == s.phase && w.demand == s.demand && w.sentMs - s.sentMs <= TIMEOUT_MS
  {
  }

  /**
   * Every fan write is the packet right after a query sent at most 2000 ms earlier at the same demand, whose matching
   * reply was complete, ready and alarm-free, showed that this very fan differs from the demand, and showed the top
   * cover if one was required, that is, seen before in this activation.
   */
  lemma WriteFollowsObservation(es: seq<Event>, k: nat) returns (j: nat, r: nat, q: Packet)
    requires k < |es| && PacketAt(es, k).Some? && !PacketAt(es, k).value.phase.Observe?
    ensures var w := PacketAt(es, k).value;
            && LatestPacket(es, j, k, q) && j < r < k && es[r].Answered?
            && Authorises(StateAt(es, r), q, es[r].reply, w.phase)
            && w.demand == q.demand && w.sentMs - q.sentMs <= TIMEOUT_MS && w.id < q.id
    ensures var w := PacketAt(es, k).value;
            var o := es[r].reply.seen;
            if w.phase.WriteAux? then FarOff(o.aux.value, w.demand)
            else Shown(o, q.withTop) && FarOff(o.exhaust.value, w.demand)
  {
    hide AfterPoll;
    PollWrites(StateAt(es, k), es[k].poll);
    j, r, q := ArmedByObservation(es, k);
    PacketIdsDecrease(es, j, k);
  }

  /** A poll while printer ventilation is off, the printer away or its fan of another kind. */
  predicate Deactivates(e: Event)
  {
    e.Polled? && !(e.poll.active && e.poll.connected && e.poll.exactAux)
  }

  lemma StepKeepsTop(s: Engine, e: Event)
    requires s.topRequired && !Deactivates(e)
    ensures Step(s, e).topRequired
  {
  }

  /** A top cover once seen stays required until the activation ends. */
  lemma {:induction false} TopStaysRequired(es: seq<Event>, a: nat, k: nat)
    requires a <= k <= |es| && StateAt(es, a).topRequired
    requires forall m :: a <= m < k ==> !Deactivates(es[m])
    ensures StateAt(es, k).topRequired
    decreases k
  {
    hide Step;
    if a < k {
      TopStaysRequired(es, a, k - 1);
      StepKeepsTop(StateAt(es, k - 1), es[k - 1]);
    }
  }

  // ---------------------------------------------------------------- neither fan starves

  lemma StepKeepsLast(s: Engine, e: Event)
    ensures Step(s, e).last == (if Output(s, e).Some? && !Output(s, e).value.phase.Observe?
                                then Output(s, e).value.phase else s.last)
  {
    hide Prepared, Emitted, Judged;
    if e.Polled? {
      var a := Prepared(s, e.poll);
      PreparedKeepsLast(s, e.poll);
      EmittedSetsLast(Unstale(a, e.poll.nowMs), e.poll);
    } else if e.Answered? {
      JudgedIds(s.(pending := 0, dueMs := e.nowMs + 500), e.reply.seen, e.nowMs);
    }
  }

  lemma PreparedKeepsLast(s: Engine, p: Poll)
    ensures Prepared(s, p).last == s.last
  {
  }

  lemma EmittedSetsLast(s: Engine, p: Poll)
    ensures var (t, packet) := Emitted(s, p);
            t.last == if packet.Some? && !packet.value.phase.Observe? then packet.value.phase else s.last
  {
  }

  lemma {:induction false} LastIsLatestWrite(es: seq<Event>, j: nat, k: nat)
    requires j < k <= |es| && PacketAt(es, j).Some? && !PacketAt(es, j).value.phase.Observe?
    requires forall m :: j < m < k && PacketAt(es, m).Some? ==> PacketAt(es, m).value.phase.Observe?
    ensures StateAt(es, k).last == PacketAt(es, j).value.phase
    decreases k
  {
    hide Step, Output;
    StepKeepsLast(StateAt(es, k - 1), es[k - 1]);
    if j + 1 < k {
      assert PacketAt(es, k - 1).Some? ==> PacketAt(es, k - 1).value.phase.Observe?;
      LastIsLatestWrite(es, j, k - 1);
    } else {
      assert PacketAt(es, j) == Output(StateAt(es, k - 1), es[k - 1]);
    }
  }

  /** Two neighbouring writes: if both fans differed in the observation before the second, it goes to the other fan. */
  lemma WritesAlternate(es: seq<Event>, j: nat, k: nat) returns (r: nat, q: Packet)
    requires j < k < |es| && PacketAt(es, j).Some? && !PacketAt(es, j).value.phase.Observe?
    requires PacketAt(es, k).Some? && !PacketAt(es, k).value.phase.Observe?
    requires forall m :: j < m < k && PacketAt(es, m).Some? ==> PacketAt(es, m).value.phase.Observe?
    ensures j < r < k && es[r].Answered? && Authorises(StateAt(es, r), q, es[r].reply, PacketAt(es, k).value.phase)
    ensures var o := es[r].reply.seen;
            FarOff(o.aux.value, q.demand) && TopFarOff(o, q.withTop, q.demand) ==>
              PacketAt(es, k).value.phase != PacketAt(es, j).value.phase
  {
    hide AfterPoll, AfterResponse, FarOff;
    var i: nat;
    i, r, q := WriteFollowsObservation(es, k);
    LastIsLatestWrite(es, j, r);
  }

  // ---------------------------------------------------------------- one request at a time

  /** Packets keep to the ids left for them and to a demand in percent. */
  lemma PacketsAreBounded(es: seq<Event>, k: nat)
    requires k < |es| && PacketAt(es, k).Some?
    ensures var q := PacketAt(es, k).value; -1_000_000_000 <= q.id < -1000 && 0 <= q.demand <= 100
  {
    hide Prepared, Emitted, IdsSane;
    IdsFall(es, k, k);
    PollEmits(StateAt(es, k), es[k].poll);
  }

  lemma PollEmits(s: Engine, p: Poll)
    requires IdsSane(s) && AfterPoll(s, p).1.Some?
    ensures var (t, packet) := AfterPoll(s, p);
            && -1_000_000_000 <= packet.value.id < -1000 && 0 <= packet.value.demand <= 100 && packet.value.id != 0
            && Waits(t, packet.value)
  {
  }

  /** The request is in flight, at the demand in force. */
  predicate Waits(s: Engine, q: Packet)
  {
    s.active && s.pending == q.id != 0 && s.sentMs == q.sentMs && s.demand == q.demand
  }

  /** An event that ends the wait for a request: its reply, a change of what is wanted, or 2 s gone by. */
  predicate Frees(e: Event, q: Packet)
  {
    match e
    case Polled(p) => !p.active || !p.connected || !p.exactAux || p.demand != q.demand || p.nowMs - q.sentMs >= 2000
    case Answered(r, _) => r.id == Some(q.id)
    case Notified(relevant, _) => relevant
    case Dropped => true
  }

  lemma WaitGoesOn(s: Engine, e: Event, q: Packet)
    requires Waits(s, q) && !Frees(e, q)
    ensures Waits(Step(s, e), q) && Output(s, e).None?
  {
  }

  /** Between two packets something ended the wait for the first one. */
  lemma {:induction false} OneRequestAtATime(es: seq<Event>, j: nat, k: nat)
    requires j < k <= |es| && PacketAt(es, j).Some?
    requires forall m :: j < m < k ==> !Frees(es[m], PacketAt(es, j).value)
    ensures Waits(StateAt(es, k), PacketAt(es, j).value)
    ensures k < |es| && PacketAt(es, k).Some? ==> Frees(es[k], PacketAt(es, j).value)
    decreases k
  {
    hide Step, Output, Frees, IdsSane;
    var q := PacketAt(es, j).value;
    if k == j + 1 {
      IdsFall(es, j, j);
      PacketIsPolled(StateAt(es, j), es[j]);
      PollEmits(StateAt(es, j), es[j].poll);
    } else {
      OneRequestAtATime(es, j, k - 1);
      assert !Frees(es[k - 1], q);
      WaitGoesOn(StateAt(es, k - 1), es[k - 1], q);
    }
    if k < |es| && !Frees(es[k], q) {
      WaitGoesOn(StateAt(es, k), es[k], q);
    }
  }

  lemma PacketIsPolled(s: Engine, e: Event)
    requires Output(s, e).Some?
    ensures e.Polled? && AfterPoll(s, e.poll).1 == Output(s, e) && Step(s, e) == AfterPoll(s, e.poll).0
  {
  }

  /** A request unanswered for 2 s is given up by the next poll, and another one may follow a second later. */
  lemma SilenceTimesOut(s: Engine, p: Poll)
    requires s.active && s.pending != 0 && s.demand == p.demand && 0 <= p.demand <= 100
    requires p.active && p.connected && p.exactAux
    ensures AfterPoll(s, p) == (if p.nowMs - s.sentMs < 2000 then s
                                else s.(pending := 0, phase := Observe, status := TimedOut, dueMs := p.nowMs + 1000),
                                None)
  {
  }

  // ---------------------------------------------------------------- what a reply means

  /**
   * The reply to the request in flight ends it. "Verified" is reported exactly for a sound observation with every fan
   * within 1.1 points of the demand, and a correction exactly for a sound one with a fan further off.
   */
  lemma ReplyOutcome(s: Engine, r: Reply, nowMs: int)
    requires s.active && s.pending != 0 && r.id == Some(s.pending)
    ensures var a, o := AfterResponse(s, r, nowMs), r.seen;
            var failed, sound := r.error || !r.result, Sound(o, s.queryTop, s.topRequired);
            && a.pending == 0
            && if failed then a.status.CommandError? && a.phase.Observe? && a.dueMs == nowMs + 2000
               else if s.pendingDemand != s.demand then
                 a.status == s.status && a.phase.Observe? && a.dueMs == nowMs + 500
               else if !s.phase.Observe? then
                 a.status == (if r.success then Verifying else CommandError) && a.phase.Observe? && a.dueMs == nowMs
               else
                 && (sound ==> var off := FarOff(o.aux.value, s.demand) || TopFarOff(o, s.queryTop, s.demand);
                               a.status == (if off then Correcting else Verified) && a.phase.Observe? == !off
                               && a.dueMs == if off then nowMs else nowMs + 500)
                 && (!sound ==> a.status in {InvalidData, TopCoverFault} && a.phase.Observe? && a.dueMs == nowMs + 500)
                 && (o.ready && o.aux.Some? && s.queryTop && o.detected.Some? && o.alarm.Some? && o.fault.Some? ==>
                       (a.status.TopCoverFault? <==> o.alarm.value || o.fault.value ||
                                                     (s.topRequired && !o.detected.value)))
  {
    hide Judged, FarOff, TopFarOff;
    if s.phase.Observe? {
      JudgedIs(s.(pending := 0, dueMs := nowMs + 500), r.seen, nowMs);
    }
  }

  /** A relevant notification makes the next poll observe, whatever was under way. */
  lemma NotificationObserves(s: Engine, t: int, p: Poll)
    requires IdsSane(s) && s.active && s.sequence > -1_000_000_000
    requires p.active && p.connected && p.exactAux && p.demand == s.demand && 0 <= p.demand <= 100
    requires p.nowMs >= t && p.fits
    ensures var packet := AfterPoll(AfterNotify(s, true, t), p).1;
            packet.Some? && packet.value.phase.Observe? && packet.value.sentMs == p.nowMs
  {
  }

  // ---------------------------------------------------------------- the top cover

  /** A reply in time that showed the cover. */
  predicate SawTop(es: seq<Event>, r: nat)
    requires r < |es|
  {
    var s := StateAt(es, r);
    && es[r].Answered? && s.active && s.pending != 0 && es[r].reply.id == Some(s.pending)
    && es[r].reply.seen.ready && Shown(es[r].reply.seen, s.queryTop)
  }

  lemma TopIsSeen(s: Engine, e: Event)
    requires Step(s, e).topRequired
    ensures !Deactivates(e)
    ensures !s.topRequired ==>
              && e.Answered? && s.active && s.pending != 0 && e.reply.id == Some(s.pending)
              && e.reply.seen.ready && Shown(e.reply.seen, s.queryTop)
  {
  }

  /** The cover is required only after it was seen, and no longer once the engine was switched off or disconnected. */
  lemma {:induction false} RequiredTopWasSeen(es: seq<Event>, k: nat) returns (r: nat)
    requires k <= |es| && StateAt(es, k).topRequired
    ensures r < k && SawTop(es, r) && forall m :: r <= m < k ==> !Deactivates(es[m])
  {
    hide Step, Shown, Deactivates;
    TopIsSeen(StateAt(es, k - 1), es[k - 1]);
    if StateAt(es, k - 1).topRequired {
      r := RequiredTopWasSeen(es, k - 1);
    } else {
      r := k - 1;
    }
  }

  // ---------------------------------------------------------------- convergence with a cooperative printer

  /** A printer nobody else commands, whose fans do as they are told. */
  datatype Printer = Printer(aux: real, exhaust: real, top: bool)

  datatype Turn = Turn(atMs: int, latencyMs: int)

  function AnswerOf(pr: Printer, q: Packet): Reply
  {
    var flag := if q.withTop then Some(false) else None;
    Reply(Some(q.id), false, true, true,
          Observation(true, Some(pr.aux), if q.withTop then Some(pr.top) else None, flag, flag,
                      if q.withTop && pr.top then Some(pr.exhaust) else None))
  }

  function AfterPacket(pr: Printer, q: Packet): Printer
  {
    match q.phase
    case Observe => pr
    case WriteAux => pr.(aux := q.demand as real / 100.0)
    case WriteTop => pr.(exhaust := q.demand as real / 100.0)
  }

  function PollAt(t: Turn, demand: int, hasTop: bool): Poll { Poll(true, true, true, hasTop, demand, t.atMs, true) }

  /** One poll and, if it emitted a packet, the printer's answer. */
  function Exchange(s: Engine, pr: Printer, t: Turn, demand: int, hasTop: bool): (Engine, Printer)
  {
    var (a, packet) := AfterPoll(s, PollAt(t, demand, hasTop));
    if packet.None? then (a, pr)
    else (AfterResponse(a, AnswerOf(pr, packet.value), t.atMs + t.latencyMs), AfterPacket(pr, packet.value))
  }

  function Exchanges(s: Engine, pr: Printer, turns: seq<Turn>, demand: int, hasTop: bool): (Engine, Printer)
    decreases |turns|
  {
    if turns == [] then (s, pr)
    else
      var (a, q) := Exchange(s, pr, turns[0], demand, hasTop);
      Exchanges(a, q, turns[1..], demand, hasTop)
  }

  /** The poll comes when the engine is due, and in time for a write; the answer comes within the timeout. */
  predicate InTime(s: Engine, t: Turn)
  {
    && s.dueMs <= t.atMs && 0 <= t.latencyMs < TIMEOUT_MS
    && (!s.phase.Observe? ==> t.atMs - s.sentMs <= TIMEOUT_MS)
  }

  predicate AllInTime(s: Engine, pr: Printer, turns: seq<Turn>, demand: int, hasTop: bool)
    decreases |turns|
  {
    turns != [] ==>
      && InTime(s, turns[0])
      && var (a, q) := Exchange(s, pr, turns[0], demand, hasTop);
         AllInTime(a, q, turns[1..], demand, hasTop)
  }

  /** How many fans are off the demand. */
  function Off(pr: Printer, demand: int): nat
  {
    (if Differs(pr.aux, demand) then 1 else 0) + (if pr.top && Differs(pr.exhaust, demand) then 1 else 0)
  }

  /** The id the next packet counts down from; a new engine has none yet. */
  function LastId(s: Engine): int { if s.sequence == 0 then FIRST_ID else s.sequence }

  predicate IdleAt(s: Engine, pr: Printer, demand: int, hasTop: bool)
  {
    && s.active && s.pending == 0 && s.phase.Observe? && s.demand == demand && 0 <= demand <= 100
    && s.sequence <= 0 && (pr.top ==> hasTop) && (s.topRequired ==> pr.top)
  }

  lemma ObservationVerifies(s: Engine, pr: Printer, t: Turn, demand: int, hasTop: bool)
    requires IdleAt(s, pr, demand, hasTop) && InTime(s, t) && LastId(s) > LAST_ID && Off(pr, demand) == 0
    ensures Exchange(s, pr, t, demand, hasTop).0.status == Verified
  {
    hide Differs;
  }

  /** Observing a fan that is off arms a write of a fan that is off. */
  lemma ObservationArms(s: Engine, pr: Printer, t: Turn, demand: int, hasTop: bool)
    requires IdleAt(s, pr, demand, hasTop) && InTime(s, t) && LastId(s) > LAST_ID && Off(pr, demand) > 0
    ensures var (a, q) := Exchange(s, pr, t, demand, hasTop);
            && q == pr && a.sequence == LastId(s) - 1 && a.active && a.pending == 0 && a.demand == demand
            && !a.phase.Observe? && (a.topRequired ==> pr.top)
            && (a.phase.WriteAux? ==> Differs(pr.aux, demand))
            && (a.phase.WriteTop? ==> pr.top && Differs(pr.exhaust, demand))
  {
    hide Differs;
  }

  lemma DemandMatchesItself(demand: int)
    ensures !Differs(demand as real / 100.0, demand)
  {
  }

  lemma WriteSettles(s: Engine, pr: Printer, t: Turn, demand: int, hasTop: bool)
    requires s.active && s.pending == 0 && !s.phase.Observe? && s.demand == demand && 0 <= demand <= 100
    requires LAST_ID < s.sequence < 0 && InTime(s, t) && (pr.top ==> hasTop) && (s.topRequired ==> pr.top)
    requires s.phase.WriteAux? ==> Differs(pr.aux, demand)
    requires s.phase.WriteTop? ==> pr.top && Differs(pr.exhaust, demand)
    ensures var (a, q) := Exchange(s, pr, t, demand, hasTop);
            IdleAt(a, q, demand, hasTop) && a.sequence == s.sequence - 1 && Off(q, demand) == Off(pr, demand) - 1
  {
    hide Differs;
    DemandMatchesItself(demand);
  }

  /** What a poll makes of an engine that is inactive or at another demand: idle, on a printer that fits it. */
  lemma PollPrepares(s: Engine, pr: Printer, p: Poll)
    requires Wanted(p) && 0 <= p.demand <= 100 && s.sequence <= 0
    requires (!s.active && s.pending == 0) || s.demand != p.demand
    requires (pr.top ==> p.hasTop) && (s.topRequired ==> pr.top)
    ensures var a := Prepared(s, p); IdleAt(a, pr, p.demand, p.hasTop) && a.dueMs == 0
  {
  }

  lemma PreparedOnce(s: Engine, pr: Printer, t: Turn, demand: int, hasTop: bool)
    requires 0 <= demand <= 100
    ensures Exchange(Prepared(s, PollAt(t, demand, hasTop)), pr, t, demand, hasTop)
         == Exchange(s, pr, t, demand, hasTop)
  {
    hide Emitted, AfterResponse, AnswerOf, AfterPacket, Unstale;
  }

  /**
   * With a printer that answers in time, an engine that its first poll finds or makes idle, the first poll after boot
   * and a change of demand included, needs one write for each fan that is off, never more than two, and one observation
   * more than that, to report "verified".
   */
  lemma ConvergesQuickly(s: Engine, pr: Printer, turns: seq<Turn>, demand: int, hasTop: bool)
    requires |turns| == 2 * Off(pr, demand) + 1
    requires var a := Prepared(s, PollAt(turns[0], demand, hasTop));
             IdleAt(a, pr, demand, hasTop) && LastId(a) > LAST_ID + 5 && AllInTime(a, pr, turns, demand, hasTop)
    ensures |turns| <= 5 && Exchanges(s, pr, turns, demand, hasTop).0.status == Verified
  {
    hide Exchange, InTime, Differs;
    var a := Prepared(s, PollAt(turns[0], demand, hasTop));
    ConvergesFrom(a, pr, turns, demand, hasTop);
    PreparedOnce(s, pr, turns[0], demand, hasTop);
  }

  /** So does every activation, the first after boot included, and every change of demand. */
  lemma ActivationConverges(s: Engine, pr: Printer, turns: seq<Turn>, demand: int, hasTop: bool)
    requires |turns| == 2 * Off(pr, demand) + 1 && 0 <= demand <= 100
    requires ((!s.active && s.pending == 0) || s.demand != demand) && s.sequence <= 0
    requires (pr.top ==> hasTop) && (s.topRequired ==> pr.top)
    requires var a := Prepared(s, PollAt(turns[0], demand, hasTop));
             LastId(a) > LAST_ID + 5 && AllInTime(a, pr, turns, demand, hasTop)
    ensures |turns| <= 5 && Exchanges(s, pr, turns, demand, hasTop).0.status == Verified
  {
    hide Exchange, InTime, Differs;
    PollPrepares(s, pr, PollAt(turns[0], demand, hasTop));
    ConvergesQuickly(s, pr, turns, demand, hasTop);
  }

  lemma {:induction false} ConvergesFrom(s: Engine, pr: Printer, turns: seq<Turn>, demand: int, hasTop: bool)
    requires IdleAt(s, pr, demand, hasTop) && LastId(s) > LAST_ID + 2 * Off(pr, demand)
    requires |turns| == 2 * Off(pr, demand) + 1 && AllInTime(s, pr, turns, demand, hasTop)
    ensures Exchanges(s, pr, turns, demand, hasTop).0.status == Verified
    decreases |turns|
  {
    hide Exchange, Differs, InTime;
    if Off(pr, demand) == 0 {
      ObservationVerifies(s, pr, turns[0], demand, hasTop);
      var (a, q) := Exchange(s, pr, turns[0], demand, hasTop);
      assert Exchanges(a, q, turns[1..], demand, hasTop) == (a, q);
    } else {
      ObservationArms(s, pr, turns[0], demand, hasTop);
      var (a, q) := Exchange(s, pr, turns[0], demand, hasTop);
      var rest := turns[1..];
      assert AllInTime(a, q, rest, demand, hasTop) && rest != [];
      WriteSettles(a, q, rest[0], demand, hasTop);
      var (b, u) := Exchange(a, q, rest[0], demand, hasTop);
      ConvergesFrom(b, u, rest[1..], demand, hasTop);
    }
  }
}
