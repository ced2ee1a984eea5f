/** main/fan_triac.c: held TRIAC gate, switched on by the zero-cross interrupt, off at once. Times in microseconds. */
module FanTriac {
  import opened Common

  const GLITCH_REJECT_US := 4000
  const PRESENT_MAX_AGE_US := 100_000
  const PERIOD_SATURATION := 0xFFFF_FFFF

  datatype Fan = Fan(
    initialized: bool,
    requested: bool,
    applied: bool,
    edges: nat,
    rejected: nat,
    gaps: nat,
    lastEdgeUs: int,
    lastPeriodUs: int,
    minPeriodUs: int,
    maxPeriodUs: int)

  datatype Stats = Stats(edges: nat, rejected: nat, gaps: nat, lastEdgeMs: int, present: bool)

  // ---------------------------------------------------------------- specification functions

  const POWER_ON := Fan(true, false, false, 0, 0, 0, 0, 0, 0, 0)

  /** An edge is accepted when it is the first one or comes at least 4 ms after the last accepted one. */
  predicate Accepts(lastEdgeUs: int, nowUs: int)
  {
    lastEdgeUs == 0 || nowUs - lastEdgeUs >= GLITCH_REJECT_US
  }

  function AfterEdge(f: Fan, nowUs: int): Fan
  {
    if !Accepts(f.lastEdgeUs, nowUs) then f.(rejected := f.rejected + 1)
    else if f.lastEdgeUs == 0 then f.(lastEdgeUs := nowUs, edges := f.edges + 1, applied := f.requested)
    else
      var interval := nowUs - f.lastEdgeUs;
      var period := Min(interval, PERIOD_SATURATION);
      f.(lastEdgeUs := nowUs,
         edges := f.edges + 1,
         applied := f.requested,
         gaps := f.gaps + if interval > PRESENT_MAX_AGE_US then 1 else 0,
         lastPeriodUs := period,
         minPeriodUs := if f.minPeriodUs == 0 then period else Min(f.minPeriodUs, period),
         maxPeriodUs := Max(f.maxPeriodUs, period))
  }

  function AfterEdges(f: Fan, edges: seq<int>): Fan
    decreases |edges|
  {
    if edges == [] then f else AfterEdges(AfterEdge(f, edges[0]), edges[1..])
  }

  function AfterSet(f: Fan, on: bool): Fan
  {
    if on && f.initialized then f.(requested := true) else f.(requested := false, applied := false)
  }

  predicate EdgeFresh(lastEdgeUs: int, nowUs: int)
  {
    lastEdgeUs > 0 && nowUs >= lastEdgeUs && nowUs - lastEdgeUs <= PRESENT_MAX_AGE_US
  }

  /** shu1_fan_triac_is_running: gate applied and zero-cross seen within 100 ms. */
  predicate Running(f: Fan, nowUs: int)
  {
    f.initialized && f.applied && EdgeFresh(f.lastEdgeUs, nowUs)
  }

  predicate Active(f: Fan) { f.initialized && f.requested }

  function StatsAt(f: Fan, nowUs: int): Stats
  {
    Stats(f.edges, f.rejected, f.gaps, if f.lastEdgeUs > 0 then f.lastEdgeUs / 1000 else 0,
          EdgeFresh(f.lastEdgeUs, nowUs))
  }

  // ---------------------------------------------------------------- the module itself

  class TriacFan {
    var initialized: bool
    var requested: bool
    var applied: bool
    var edges: nat
    var rejected: nat
    var gaps: nat
    var lastEdgeUs: int
    var lastPeriodUs: int
    var minPeriodUs: int
    var maxPeriodUs: int
    var gatePin: bool

    ghost function View(): Fan
      reads this
    {
      Fan(initialized, requested, applied, edges, rejected, gaps, lastEdgeUs, lastPeriodUs, minPeriodUs, maxPeriodUs)
    }

    /** The physical gate always follows the applied flag, and is never on without a request. */
    ghost predicate Valid()
      reads this
    {
      gatePin == applied && (applied ==> requested) && (requested ==> initialized)
    }

    constructor ()
      ensures Valid() && View() == POWER_ON
    {
      initialized, requested, applied, gatePin := true, false, false, false;
      edges, rejected, gaps, lastEdgeUs := 0, 0, 0, 0;
      lastPeriodUs, minPeriodUs, maxPeriodUs := 0, 0, 0;
    }

    /** The interval since the last accepted edge, saturated, and the gap counter. */
    method NotePeriod(interval: int)
      modifies `gaps, `lastPeriodUs, `minPeriodUs, `maxPeriodUs
      ensures gaps == old(gaps) + if interval > PRESENT_MAX_AGE_US then 1 else 0
      ensures lastPeriodUs == Min(interval, PERIOD_SATURATION)
      ensures minPeriodUs == if old(minPeriodUs) == 0 then lastPeriodUs else Min(old(minPeriodUs), lastPeriodUs)
      ensures maxPeriodUs == Max(old(maxPeriodUs), lastPeriodUs)
    {
      if interval > PRESENT_MAX_AGE_US {
        gaps := gaps + 1;
      }
      var period := if interval > PERIOD_SATURATION then PERIOD_SATURATION else interval;
      lastPeriodUs := period;
      if minPeriodUs == 0 || period < minPeriodUs {
        minPeriodUs := period;
      }
      if period > maxPeriodUs {
        maxPeriodUs := period;
      }
    }

    method ZeroCrossIsr(nowUs: int)
      requires Valid()
      modifies this
      ensures Valid() && View() == AfterEdge(old(View()), nowUs)
    {
      var previous := lastEdgeUs;
      if previous != 0 {
        if nowUs <= previous || nowUs - previous < GLITCH_REJECT_US {
          rejected := rejected + 1;
          return;
        }
        NotePeriod(nowUs - previous);
      }
      lastEdgeUs := nowUs;
      edges := edges + 1;
      var wanted := requested;
      if wanted != applied {
        gatePin := wanted;
        applied := wanted;
      }
    }

    method Set(on: bool)
      requires Valid()
      modifies this
      ensures Valid() && View() == AfterSet(old(View()), on)
    {
      requested := on && initialized;
      if !requested {
        gatePin := false;
        applied := false;
      }
    }

    method IsRunning(nowUs: int) returns (running: bool)
      ensures running == Running(View(), nowUs)
    {
      var last := lastEdgeUs;
      var on := applied;
      running := initialized && on && last > 0 && nowUs >= last && nowUs - last <= PRESENT_MAX_AGE_US;
    }

    method ZeroCrossStats(nowUs: int) returns (stats: Stats)
      ensures stats == StatsAt(View(), nowUs)
    {
      var last := lastEdgeUs;
      stats := Stats(edges, rejected, gaps, if last > 0 then last / 1000 else 0,
                     last > 0 && nowUs >= last && nowUs - last <= PRESENT_MAX_AGE_US);
    }
  }

  // ---------------------------------------------------------------- what the gap counter means

  /** The edges of a burst that come first, or 4 ms or more after the one accepted before (0: none yet). */
  function AcceptedEdges(last: int, burst: seq<int>): seq<int>
    decreases |burst|
  {
    if burst == [] then []
    else if last == 0 || burst[0] - last >= 4_000 then [burst[0]] + AcceptedEdges(burst[0], burst[1..])
    else AcceptedEdges(last, burst[1..])
  }

  /** How many neighbouring times are more than 100 ms apart. */
  function LongIntervals(times: seq<int>): nat
  {
    if |times| < 2 then 0
    else (if times[1] - times[0] > 100_000 then 1 else 0) + LongIntervals(times[1..])
  }

  /** The interrupt's counters are exactly the accepted edges and the long intervals between them. */
  lemma {:induction false} EdgesCounted(f: Fan, burst: seq<int>)
    requires forall i :: 0 <= i < |burst| ==> burst[i] > 0
    requires f.lastEdgeUs >= 0
    ensures var g := AfterEdges(f, burst);
            var accepted := AcceptedEdges(f.lastEdgeUs, burst);
            && g.edges == f.edges + |accepted|
            && g.rejected == f.rejected + |burst| - |accepted|
            && g.gaps == f.gaps + LongIntervals(if f.lastEdgeUs == 0 then accepted else [f.lastEdgeUs] + accepted)
            && g.lastEdgeUs == (if accepted == [] then f.lastEdgeUs else accepted[|accepted| - 1])
            && g.requested == f.requested && g.initialized == f.initialized
            && g.applied == (if accepted == [] then f.applied else f.requested)
    decreases |burst|
  {
    if burst != [] {
      var g := AfterEdge(f, burst[0]);
      var accepted := AcceptedEdges(f.lastEdgeUs, burst);
      var later := AcceptedEdges(g.lastEdgeUs, burst[1..]);
      EdgesCounted(g, burst[1..]);
      if Accepts(f.lastEdgeUs, burst[0]) {
        assert accepted == [burst[0]] + later;
        assert ([f.lastEdgeUs] + accepted)[1..] == accepted;
      }
    }
  }

  /** A request is served at once when it is off, and by the next accepted edge when it is on. */
  lemma FanFollowsRequest(f: Fan, on: bool, burst: seq<int>)
    requires (forall i :: 0 <= i < |burst| ==> burst[i] > 0) && f.lastEdgeUs >= 0 && f.initialized
    ensures var g := AfterEdges(AfterSet(f, on), burst);
            && g.requested == on
            && g.applied == (on && (f.applied || AcceptedEdges(f.lastEdgeUs, burst) != []))
  {
    EdgesCounted(AfterSet(f, on), burst);
  }

  /** Neighbouring times apart, as a 32-bit counter holds it. */
  function Intervals(times: seq<int>): (r: seq<int>)
    ensures |r| == if times == [] then 0 else |times| - 1
  {
    if |times| < 2 then []
    else [if times[1] - times[0] > 0xFFFF_FFFF then 0xFFFF_FFFF else times[1] - times[0]] + Intervals(times[1..])
  }

  /** The statistics bound these intervals, and each is one of them, or what it was before (0: none yet). */
  predicate Measured(f: Fan, g: Fan, times: seq<int>)
  {
    && (forall p :: p in times ==> g.minPeriodUs <= p <= g.maxPeriodUs)
    && (g.minPeriodUs == f.minPeriodUs || g.minPeriodUs in times)
    && (g.maxPeriodUs == f.maxPeriodUs || g.maxPeriodUs in times)
    && (f.minPeriodUs > 0 ==> 0 < g.minPeriodUs <= f.minPeriodUs) && g.minPeriodUs >= 0
    && (times != [] ==> g.minPeriodUs > 0) && g.maxPeriodUs >= f.maxPeriodUs
    && g.lastPeriodUs == (if times == [] then f.lastPeriodUs else times[|times| - 1])
  }

  lemma EdgeMeasures(f: Fan, nowUs: int)
    requires f.minPeriodUs >= 0
    ensures var g := AfterEdge(f, nowUs);
            if Accepts(f.lastEdgeUs, nowUs) && f.lastEdgeUs != 0 then
              Measured(f, g, [if nowUs - f.lastEdgeUs > 0xFFFF_FFFF then 0xFFFF_FFFF else nowUs - f.lastEdgeUs])
            else Measured(f, g, [])
  {
  }

  lemma MeasuresAdd(f: Fan, g: Fan, h: Fan, a: seq<int>, b: seq<int>)
    requires Measured(f, g, a) && Measured(g, h, b)
    requires forall p :: p in a ==> p > 0
    ensures Measured(f, h, a + b)
  {
  }

  lemma IntervalsSplit(last: int, now: int, rest: seq<int>)
    ensures Intervals([last] + ([now] + rest))
         == [if now - last > 0xFFFF_FFFF then 0xFFFF_FFFF else now - last] + Intervals([now] + rest)
  {
    assert ([last] + ([now] + rest))[1..] == [now] + rest;
  }

  /** The accepted intervals of a burst, the one since the last edge before it included. */
  function Accepted(f: Fan, burst: seq<int>): seq<int>
  {
    var edges := AcceptedEdges(f.lastEdgeUs, burst);
    Intervals(if f.lastEdgeUs == 0 then edges else [f.lastEdgeUs] + edges)
  }

  lemma AcceptedUnfolds(f: Fan, burst: seq<int>)
    requires burst != [] && burst[0] > 0 && f.lastEdgeUs >= 0
    ensures var now := burst[0];
            var rest := Accepted(AfterEdge(f, now), burst[1..]);
            Accepted(f, burst)
            == if Accepts(f.lastEdgeUs, now) && f.lastEdgeUs != 0
               then [if now - f.lastEdgeUs > 0xFFFF_FFFF then 0xFFFF_FFFF else now - f.lastEdgeUs] + rest
               else rest
    ensures AfterEdge(f, burst[0]).lastEdgeUs == if Accepts(f.lastEdgeUs, burst[0]) then burst[0] else f.lastEdgeUs
  {
    hide Intervals;
    IntervalsSplit(f.lastEdgeUs, burst[0], AcceptedEdges(burst[0], burst[1..]));
  }

  /** Shortest, longest and last period are those of the accepted edges. */
  lemma {:induction false} PeriodsMeasured(f: Fan, burst: seq<int>)
    requires (forall i :: 0 <= i < |burst| ==> burst[i] > 0) && f.lastEdgeUs >= 0 && f.minPeriodUs >= 0
    ensures Measured(f, AfterEdges(f, burst), Accepted(f, burst))
    decreases |burst|
  {
    if burst == [] {
      assert AcceptedEdges(f.lastEdgeUs, burst) == [];
    } else {
      var now, g := burst[0], AfterEdge(f, burst[0]);
      AcceptedUnfolds(f, burst);
      EdgeMeasures(f, now);
      MeasuredStays(f, g);
      hide Measured, Accepted, AfterEdge;
      PeriodsMeasured(g, burst[1..]);
      var first := if Accepts(f.lastEdgeUs, now) && f.lastEdgeUs != 0
                   then [if now - f.lastEdgeUs > 0xFFFF_FFFF then 0xFFFF_FFFF else now - f.lastEdgeUs] else [];
      MeasuresAdd(f, g, AfterEdges(g, burst[1..]), first, Accepted(g, burst[1..]));
      assert [] + Accepted(g, burst[1..]) == Accepted(g, burst[1..]);
    }
  }

  lemma MeasuredStays(f: Fan, g: Fan)
    ensures forall times :: Measured(f, g, times) ==> g.minPeriodUs >= 0
  {
  }

  /** Any long interval among the accepted edges shows up in the gap counter. */
  lemma {:induction false} LongIntervalCounted(times: seq<int>, k: nat)
    requires k + 1 < |times| && times[k + 1] - times[k] > PRESENT_MAX_AGE_US
    ensures LongIntervals(times) > 0
  {
    if k > 0 {
      LongIntervalCounted(times[1..], k - 1);
    }
  }

  lemma {:induction false} EdgesConcat(f: Fan, a: seq<int>, b: seq<int>)
    ensures AfterEdges(f, a + b) == AfterEdges(AfterEdges(f, a), b)
    decreases |a|
  {
    if a == [] {
      assert a + b == b;
    } else {
      assert (a + b)[1..] == a[1..] + b;
      EdgesConcat(AfterEdge(f, a[0]), a[1..], b);
    }
  }
}
