/** main/recorder.c: the two-hour history ring and the page a client fetches from it. */
module Recorder {
  import opened Common
  import opened PlantState

  const SAMPLE_INTERVAL_S := 10
  const CAP := 720
  const PAGE := 32
  const UINT32 := 0x1_0000_0000

  /** record_t; INT16_MIN in a temperature field is None. Temperatures are tenths of a degree. */
  datatype Record = Record(number: nat, seconds: nat, chamber: Option<int>, ptc: Option<int>, target: Option<int>,
                           flags: nat, fault: nat)

  /** What the device contributes to a record. */
  datatype Reading = Reading(chamber: Temp, ptc: Temp, target: Temp, heater: bool, fan: bool, paused: bool, fault: int)

  datatype Page = Page(device: string, boot: string, nowS: nat, first: nat, next: nat, last: nat, gap: bool,
                       samples: seq<Record>)

  // ---------------------------------------------------------------- specification functions

  /** lroundf: halves away from zero. */
  function Round(x: real): int
  {
    if x >= 0.0 then (x + 0.5).Floor else -((-x + 0.5).Floor)
  }

  function Tenths(t: Temp): Option<int>
  {
    if t.Deg? && -3276.0 < t.c < 3276.0 then Some(Round(t.c * 10.0)) else None
  }

  /** The reading a record is made from: sensors with a good status, and the target of a job at work and not paused. */
  function ReadingOf(st: Settings, rt: Runtime): Reading
  {
    Reading(if rt.chamberStatus.SensorOk? then rt.chamber else Bad, if rt.ptcStatus.SensorOk? then rt.ptc else Bad,
            Deg(if st.workOn && !st.userPaused then rt.targetC as real else 0.0), rt.heaterOn, rt.fanOn, st.userPaused,
            rt.fault)
  }

  function FlagsOf(r: Reading): (f: nat)
    ensures f <= 7
  {
    (if r.heater then 1 else 0) + (if r.fan then 2 else 0) + (if r.paused then 4 else 0)
  }

  function RecordOf(number: nat, seconds: nat, r: Reading): Record
  {
    Record(number, seconds, Tenths(r.chamber), Tenths(r.ptc), Tenths(r.target), FlagsOf(r), r.fault % 256)
  }

  predicate InTenths(t: Option<int>) { t.Some? ==> -32760 <= t.value <= 32760 }

  predicate Recordable(r: Record)
  {
    r.seconds < UINT32 && InTenths(r.chamber) && InTenths(r.ptc) && InTenths(r.target) && r.flags <= 7 && r.fault <= 255
  }

  /** Everything one boot has recorded: numbered from 1, at least ten seconds apart. */
  predicate Chronicle(log: seq<Record>)
  {
    && |log| < UINT32 - 1
    && (forall i :: 0 <= i < |log| ==> log[i].number == i + 1 && Recordable(log[i]))
    && (forall i :: 0 < i < |log| ==> log[i].seconds >= log[i - 1].seconds + SAMPLE_INTERVAL_S)
  }

  /** The chronicle after one turn of the recorder task: a record every ten seconds. */
  function AfterSample(log: seq<Record>, seconds: nat, r: Reading): seq<Record>
  {
    if log == [] || seconds - log[|log| - 1].seconds >= SAMPLE_INTERVAL_S
    then log + [RecordOf(|log| + 1, seconds, r)] else log
  }

  function FirstKept(last: nat): nat { if last > CAP then last - CAP + 1 else 1 }

  function EffectiveAfter(after: nat, last: nat): nat { if after > last then 0 else after }

  /** The page for a cursor, as a function of everything recorded since boot. */
  function PageOf(device: string, boot: string, log: seq<Record>, after: nat, nowS: nat): Page
  {
    var last := |log|;
    var first := FirstKept(last);
    var from := EffectiveAfter(after, last);
    var start := Max(from, first - 1);
    var end := Min(start + PAGE, last);
    var samples := if start <= end then log[start..end] else [];
    Page(device, boot, nowS, first, if samples == [] then from else end, last, from < first - 1, samples)
  }

  // ---------------------------------------------------------------- the module itself

  class Ring {
    const device: string
    const boot: string
    const records: array<Record>
    var sequence: nat
    var sampled: Option<nat>
    ghost var log: seq<Record>

    /** The ring holds the newest records of the chronicle, each in its slot. */
    ghost predicate Mirrors()
      reads this, records
    {
      && records.Length == CAP && sequence == |log|
      && (forall i :: 0 <= i < |log| && |log| - CAP <= i ==> records[i % CAP] == log[i])
    }

    ghost predicate Valid()
      reads this, records
    {
      && Mirrors() && Chronicle(log)
      && (log == [] <==> sampled.None?) && (log != [] ==> sampled == Some(log[|log| - 1].seconds))
    }

    constructor (device: string, boot: string)
      ensures Valid() && log == [] && this.device == device && this.boot == boot && fresh(records)
    {
      this.device, this.boot := device, boot;
      records := new Record[CAP](_ => Record(0, 0, None, None, None, 0, 0));
      sequence, sampled, log := 0, None, [];
    }

    /** One turn of recorder_task: a record every ten seconds, over the oldest one once the ring is full. */
    method Sample(seconds: nat, r: Reading)
      requires Valid() && seconds < UINT32 && sequence + 1 < UINT32 - 1
      requires sampled.Some? ==> sampled.value <= seconds
      modifies this, records
      ensures Valid()
      ensures log == AfterSample(old(log), seconds, r)
    {
      hide Recordable, Tenths;
      if sampled.None? || seconds - sampled.value >= SAMPLE_INTERVAL_S {
        SampleKeepsChronicle(log, seconds, r);
        sampled := Some(seconds);
        Put(RecordOf(sequence + 1, seconds, r));
      }
    }

    /** The slot of record n is n - 1 modulo the capacity, so only a record older than the window is overwritten. */
    method Put(rec: Record)
      requires Mirrors() && rec.number == sequence + 1
      modifies this`sequence, this`log, records
      ensures Mirrors() && log == old(log) + [rec]
    {
      ghost var n := |log|;
      forall i: nat | i < n && n + 1 - CAP <= i
        ensures i % CAP != n % CAP
      {
        SlotsDiffer(i, n);
      }
      sequence := sequence + 1;
      records[(rec.number - 1) % CAP] := rec;
      log := log + [rec];
    }

    lemma LogIsWhole()
      requires Mirrors()
      ensures records.Length == CAP && sequence == |log|
    {
    }

    /** The slot of a record still kept holds it. */
    lemma SlotHolds(number: nat)
      requires Mirrors() && 1 <= number <= sequence && sequence - CAP < number
      ensures records[(number - 1) % CAP] == log[number - 1]
    {
    }

    method PageAfter(cursor: nat, nowS: nat) returns (page: Page)
      requires Valid()
      ensures page == PageOf(device, boot, log, cursor, nowS)
    {
      hide Chronicle;
      LogIsWhole();
      hide Mirrors, PageOf;
      var last := sequence;
      var first := if last > CAP then last - CAP + 1 else 1;
      var after := if cursor > last then 0 else cursor;
      var lost := after < first - 1;
      var next := after;
      var i := if after + 1 < first then first else after + 1;
      var samples := [];
      ghost var start := Max(after, first - 1);
      while i <= last && |samples| < PAGE
        invariant start + 1 <= i <= last + 1 && |samples| == i - 1 - start <= PAGE
        invariant samples == log[start..i - 1]
        invariant next == if samples == [] then after else i - 1
      {
        SlotHolds(i);
        OneMore(log, start, i);
        samples := samples + [records[(i - 1) % CAP]];
        next := i;
        i := i + 1;
      }
      page := Page(device, boot, nowS, first, next, last, lost, samples);
      PageIs(page, log, cursor, i - 1);
    }
  }

  lemma OneMore(log: seq<Record>, start: nat, i: nat)
    requires start < i <= |log|
    ensures log[start..i] == log[start..i - 1] + [log[i - 1]]
  {
  }

  /** A page that stops at `end`, because it is full or the log ends there, is the page of the log. */
  lemma PageIs(page: Page, log: seq<Record>, cursor: nat, end: nat)
    requires var first := FirstKept(|log|);
             var from := EffectiveAfter(cursor, |log|);
             var start := Max(from, first - 1);
             && start <= end <= |log| && end - start <= PAGE && (end == |log| || end - start == PAGE)
             && page.samples == log[start..end]
             && page == Page(page.device, page.boot, page.nowS, first, if page.samples == [] then from else end, |log|,
                             from < first - 1, page.samples)
    ensures page == PageOf(page.device, page.boot, log, cursor, page.nowS)
  {
  }

  lemma SlotsDiffer(i: nat, n: nat)
    requires i < n < i + CAP
    ensures i % CAP != n % CAP
  {
  }

  // ---------------------------------------------------------------- what a record says

  /** A stored temperature is the reading in tenths, half a tenth off at most; it is missing when the reading is. */
  predicate Tells(stored: Option<int>, valid: bool, t: Temp)
  {
    && (stored.Some? <==> valid && t.Deg? && -3276.0 < t.c < 3276.0)
    && (stored.Some? ==> -0.5 <= stored.value as real - 10.0 * t.c <= 0.5)
  }

  lemma TenthsTell(valid: bool, t: Temp)
    ensures Tells(Tenths(if valid then t else Bad), valid, t)
  {
  }

  lemma WholeDegrees(v: int)
    requires -3276 < v < 3276
    ensures Tenths(Deg(v as real)) == Some(10 * v)
  {
    assert (v as real) * 10.0 == (10 * v) as real;
  }

  /** Each field of a record against the device at that moment: temperatures, target, SSR, fan, pause and fault. */
  lemma RecordTellsTheDevice(number: nat, seconds: nat, st: Settings, rt: Runtime)
    requires 0 <= rt.targetC <= 55
    ensures var r := RecordOf(number, seconds, ReadingOf(st, rt));
            && r.number == number && r.seconds == seconds
            && Tells(r.chamber, rt.chamberStatus.SensorOk?, rt.chamber) && Tells(r.ptc, rt.ptcStatus.SensorOk?, rt.ptc)
            && r.target == Some(if st.workOn && !st.userPaused then 10 * rt.targetC else 0)
            && (r.flags % 2 == 1 <==> rt.heaterOn) && (r.flags / 2 % 2 == 1 <==> rt.fanOn)
            && (r.flags / 4 == 1 <==> st.userPaused) && r.flags < 8
            && 0 <= r.fault < 256 && (r.fault - rt.fault) % 256 == 0
  {
    hide Tenths, Tells;
    TenthsTell(rt.chamberStatus.SensorOk?, rt.chamber);
    TenthsTell(rt.ptcStatus.SensorOk?, rt.ptc);
    WholeDegrees(if st.workOn && !st.userPaused then rt.targetC else 0);
  }

  /** One turn of the recorder task: the second it looks, and what it reads. */
  datatype Look = Look(seconds: nat, reading: Reading)

  /** The chronicle of a boot after these turns. */
  function Recorded(looks: seq<Look>): seq<Record>
  {
    if looks == [] then []
    else
      var last := looks[|looks| - 1];
      AfterSample(Recorded(looks[..|looks| - 1]), last.seconds, last.reading)
  }

  predicate MadeFrom(r: Record, l: Look) { r == RecordOf(r.number, l.seconds, l.reading) }

  /** Every record was made at a turn. */
  predicate AllMade(log: seq<Record>, looks: seq<Look>)
  {
    forall k: nat :: k < |log| ==> exists m: nat :: m < |looks| && MadeFrom(log[k], looks[m])
  }

  /** A record less than ten seconds older covers the turn. */
  predicate IsCovered(log: seq<Record>, l: Look)
  {
    exists k :: 0 <= k < |log| && log[k].seconds <= l.seconds < log[k].seconds + 10
  }

  predicate AllCovered(log: seq<Record>, looks: seq<Look>)
  {
    forall m :: 0 <= m < |looks| ==> IsCovered(log, looks[m])
  }

  /** Numbered from 1, ten seconds or more apart, none later than `now`. */
  predicate Spaced(log: seq<Record>, now: nat)
  {
    && (forall k :: 0 <= k < |log| ==> log[k].number == k + 1)
    && (forall k :: 0 < k < |log| ==> log[k].seconds >= log[k - 1].seconds + 10)
    && (log != [] ==> log[|log| - 1].seconds <= now)
  }

  lemma LookIsMade(log: seq<Record>, looks: seq<Look>, l: Look)
    requires AllMade(log, looks)
    ensures AllMade(AfterSample(log, l.seconds, l.reading), looks + [l])
  {
    hide RecordOf;
    RecordIsTimed(|log| + 1, l.seconds, l.reading);
    var after, all := AfterSample(log, l.seconds, l.reading), looks + [l];
    forall k: nat | k < |after|
      ensures exists m: nat :: m < |all| && MadeFrom(after[k], all[m])
    {
      if k < |log| {
        var m: nat :| m < |looks| && MadeFrom(log[k], looks[m]);
        assert MadeFrom(after[k], all[m]);
      } else {
        assert MadeFrom(after[k], all[|looks|]);
      }
    }
  }

  lemma LookIsCovered(log: seq<Record>, looks: seq<Look>, l: Look)
    requires AllCovered(log, looks) && (log != [] ==> log[|log| - 1].seconds <= l.seconds)
    ensures AllCovered(AfterSample(log, l.seconds, l.reading), looks + [l])
  {
    hide RecordOf;
    RecordIsTimed(|log| + 1, l.seconds, l.reading);
    var after, all := AfterSample(log, l.seconds, l.reading), looks + [l];
    forall m | 0 <= m < |all|
      ensures IsCovered(after, all[m])
    {
      if m < |looks| {
        assert all[m] == looks[m];
        var k :| 0 <= k < |log| && log[k].seconds <= looks[m].seconds < log[k].seconds + 10;
        assert after[k] == log[k];
      } else {
        assert after[|after| - 1].seconds <= l.seconds < after[|after| - 1].seconds + 10;
      }
    }
  }

  lemma LookIsSpaced(log: seq<Record>, l: Look)
    requires Spaced(log, l.seconds)
    ensures Spaced(AfterSample(log, l.seconds, l.reading), l.seconds)
  {
    hide RecordOf;
    RecordIsTimed(|log| + 1, l.seconds, l.reading);
  }

  /** For turns in time order, the chronicle is exactly a record for each turn ten seconds or more after the last. */
  lemma {:induction false} RecordedCovers(looks: seq<Look>)
    requires forall m :: 0 < m < |looks| ==> looks[m - 1].seconds <= looks[m].seconds
    ensures AllMade(Recorded(looks), looks) && AllCovered(Recorded(looks), looks)
    ensures Spaced(Recorded(looks), if looks == [] then 0 else looks[|looks| - 1].seconds)
    decreases |looks|
  {
    hide AfterSample, AllMade, AllCovered;
    if looks == [] {
      NothingRecorded();
    } else {
      var n := |looks| - 1;
      var log := Recorded(looks[..n]);
      RecordedCovers(looks[..n]);
      assert looks[..n] + [looks[n]] == looks;
      LookIsMade(log, looks[..n], looks[n]);
      LookIsCovered(log, looks[..n], looks[n]);
      LookIsSpaced(log, looks[n]);
    }
  }

  lemma NothingRecorded()
    ensures AllMade([], []) && AllCovered([], [])
  {
  }

  lemma RecordIsTimed(number: nat, seconds: nat, r: Reading)
    ensures var a := RecordOf(number, seconds, r); a.seconds == seconds && a.number == number
  {
  }

  // ---------------------------------------------------------------- the chronicle

  lemma SampleKeepsChronicle(log: seq<Record>, seconds: nat, r: Reading)
    requires Chronicle(log) && seconds < UINT32 && |log| + 1 < UINT32 - 1
    ensures Chronicle(AfterSample(log, seconds, r))
  {
    TenthsFit(r.chamber);
    TenthsFit(r.ptc);
    TenthsFit(r.target);
  }

  lemma TenthsFit(t: Temp)
    ensures InTenths(Tenths(t))
  {
  }
}
