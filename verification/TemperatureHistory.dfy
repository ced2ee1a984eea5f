/** TemperatureHistory.kt: one transaction commits the samples, the gaps and the cursor of a page. One device. */
module TemperatureHistory {
  import opened Common
  import opened HistoryProtocol

  datatype StoredSample = StoredSample(time: int, chamber: Option<real>, ptc: Option<real>, target: Option<real>,
                                       paused: bool, flags: nat, fault: nat)
  datatype GapKind = Restart | Overwritten | InvalidSensor
  datatype GapKey = GapKey(boot: string, sequence: nat, kind: GapKind)
  datatype GapRow = GapRow(time: int, missing: int)
  datatype BootRow = BootRow(anchor: int, firstMs: Option<int>, lastMs: Option<int>)
  datatype SampleKey = SampleKey(boot: string, sequence: nat)

  /** The four tables: device_samples, history_gaps, history_boots, history_cursor. */
  datatype Store = Store(samples: map<SampleKey, StoredSample>, gaps: map<GapKey, GapRow>, boots: map<string, BootRow>,
                         cursor: HistoryCursor)

  const EMPTY_STORE := Store(map[], map[], map[], NO_CURSOR)

  // ---------------------------------------------------------------- specification functions

  /** insertWithOnConflict(..., CONFLICT_IGNORE). */
  function InsertIgnore<K, V>(m: map<K, V>, k: K, v: V): map<K, V> { if k in m then m else m[k := v] }

  function StoredAs(anchor: int, s: HistorySample): StoredSample
  {
    StoredSample(anchor + s.seconds * 1000, s.chamber, s.ptc, s.target, s.flags / 4 % 2 == 1, s.flags, s.fault)
  }

  predicate Accepts(store: Store, page: HistoryPage, expected: HistoryCursor)
  {
    store.cursor == expected && (page.boot != expected.boot || page.next >= expected.sequence)
  }

  function AnchorOf(store: Store, page: HistoryPage, proposed: int): int
  {
    if page.boot in store.boots then store.boots[page.boot].anchor else proposed
  }

  function FirstTime(page: HistoryPage, anchor: int): int
  {
    anchor + (if page.samples != [] then page.samples[0].seconds else page.nowSeconds) * 1000
  }

  function AfterRestart(gaps: map<GapKey, GapRow>, page: HistoryPage, expected: HistoryCursor, time: int)
    : map<GapKey, GapRow>
  {
    if expected.boot != "" && expected.boot != page.boot
    then InsertIgnore(gaps, GapKey(page.boot, 0, Restart), GapRow(time, -1)) else gaps
  }

  function GapStart(page: HistoryPage, expected: HistoryCursor): nat
  {
    if expected.boot == page.boot then expected.sequence else 0
  }

  function AfterOverwritten(gaps: map<GapKey, GapRow>, page: HistoryPage, expected: HistoryCursor, time: int)
    : map<GapKey, GapRow>
  {
    if page.gap
    then InsertIgnore(gaps, GapKey(page.boot, page.first, Overwritten),
                      GapRow(time, page.first - GapStart(page, expected) - 1))
    else gaps
  }

  datatype Rows = Rows(samples: map<SampleKey, StoredSample>, gaps: map<GapKey, GapRow>)

  function AfterSample(r: Rows, boot: string, anchor: int, s: HistorySample): Rows
  {
    Rows(InsertIgnore(r.samples, SampleKey(boot, s.sequence), StoredAs(anchor, s)),
         if s.chamber.None? || s.ptc.None?
         then InsertIgnore(r.gaps, GapKey(boot, s.sequence, InvalidSensor), GapRow(anchor + s.seconds * 1000, 1))
         else r.gaps)
  }

  function AfterSamples(r: Rows, boot: string, anchor: int, samples: seq<HistorySample>): Rows
  {
    if samples == [] then r
    else AfterSample(AfterSamples(r, boot, anchor, samples[..|samples| - 1]), boot, anchor, samples[|samples| - 1])
  }

  function AfterSpan(row: BootRow, page: HistoryPage, anchor: int): BootRow
  {
    if page.samples == [] then row
    else
      var first := anchor + page.samples[0].seconds * 1000;
      var last := anchor + page.samples[|page.samples| - 1].seconds * 1000;
      row.(firstMs := Some(if row.firstMs.None? then first else Min(row.firstMs.value, first)),
           lastMs := Some(if row.lastMs.None? then last else Max(row.lastMs.value, last)))
  }

  /** The tables after a committed transaction. */
  function AfterIngest(store: Store, page: HistoryPage, expected: HistoryCursor, proposed: int): Store
  {
    var anchor := AnchorOf(store, page, proposed);
    var boots := InsertIgnore(store.boots, page.boot, BootRow(anchor, None, None));
    var time := FirstTime(page, anchor);
    var gaps := AfterOverwritten(AfterRestart(store.gaps, page, expected, time), page, expected, time);
    var rows := AfterSamples(Rows(store.samples, gaps), page.boot, anchor, page.samples);
    Store(rows.samples, rows.gaps, boots[page.boot := AfterSpan(boots[page.boot], page, anchor)],
          HistoryCursor(page.boot, page.next))
  }

  // ---------------------------------------------------------------- the store itself

  class Database {
    var samples: map<SampleKey, StoredSample>
    var gaps: map<GapKey, GapRow>
    var boots: map<string, BootRow>
    var cursor: HistoryCursor

    ghost function View(): Store
      reads this
    {
      Store(samples, gaps, boots, cursor)
    }

    constructor ()
      ensures View() == EMPTY_STORE
    {
      samples, gaps, boots, cursor := map[], map[], map[], NO_CURSOR;
    }

    /** CONFLICT_IGNORE on the primary key (boot, seq, kind). */
    method Gap(key: GapKey, time: int, missing: int)
      modifies this`gaps
      ensures gaps == InsertIgnore(old(gaps), key, GapRow(time, missing))
    {
      if key !in gaps {
        gaps := gaps[key := GapRow(time, missing)];
      }
    }

    /** A failed check rolls the transaction back: nothing changes. */
    method Ingest(page: HistoryPage, expected: HistoryCursor, proposed: int) returns (ok: bool)
      modifies this
      ensures ok == Accepts(old(View()), page, expected)
      ensures View() == if ok then AfterIngest(old(View()), page, expected, proposed) else old(View())
    {
      if cursor != expected {
        return false;
      }
      if page.boot == expected.boot && page.next < expected.sequence {
        return false;
      }
      var anchor := if page.boot in boots then boots[page.boot].anchor else proposed;
      RecordGaps(page, expected, anchor);
      InsertSamples(page.boot, anchor, page.samples);
      UpdateBoot(page, anchor);
      cursor := HistoryCursor(page.boot, page.next);
      ok := true;
    }

    method RecordGaps(page: HistoryPage, expected: HistoryCursor, anchor: int)
      modifies this`gaps
      ensures var time := FirstTime(page, anchor);
              gaps == AfterOverwritten(AfterRestart(old(gaps), page, expected, time), page, expected, time)
    {
      var seconds := if page.samples != [] then page.samples[0].seconds else page.nowSeconds;
      if expected.boot != "" && expected.boot != page.boot {
        Gap(GapKey(page.boot, 0, Restart), anchor + seconds * 1000, -1);
      }
      if page.gap {
        var start := if expected.boot == page.boot then expected.sequence else 0;
        Gap(GapKey(page.boot, page.first, Overwritten), anchor + seconds * 1000, page.first - start - 1);
      }
    }

    /** The boot's row is created once, with its anchor, and its span widened by every page. */
    method UpdateBoot(page: HistoryPage, anchor: int)
      modifies this`boots
      ensures var rows := InsertIgnore(old(boots), page.boot, BootRow(anchor, None, None));
              boots == rows[page.boot := AfterSpan(rows[page.boot], page, anchor)]
    {
      if page.boot !in boots {
        boots := boots[page.boot := BootRow(anchor, None, None)];
      }
      if page.samples != [] {
        var first := anchor + page.samples[0].seconds * 1000;
        var last := anchor + page.samples[|page.samples| - 1].seconds * 1000;
        var row := boots[page.boot];
        boots := boots[page.boot :=
          row.(firstMs := Some(if row.firstMs.None? then first else Min(row.firstMs.value, first)),
               lastMs := Some(if row.lastMs.None? then last else Max(row.lastMs.value, last)))];
      }
    }

    method InsertSamples(boot: string, anchor: int, rows: seq<HistorySample>)
      modifies this`samples, this`gaps
      ensures Rows(samples, gaps) == AfterSamples(old(Rows(samples, gaps)), boot, anchor, rows)
    {
      ghost var before := Rows(samples, gaps);
      for i := 0 to |rows|
        invariant Rows(samples, gaps) == AfterSamples(before, boot, anchor, rows[..i])
      {
        var s := rows[i];
        assert rows[..i + 1][..i] == rows[..i];
        if SampleKey(boot, s.sequence) !in samples {
          samples := samples[SampleKey(boot, s.sequence) := StoredAs(anchor, s)];
        }
        if s.chamber.None? || s.ptc.None? {
          Gap(GapKey(boot, s.sequence, InvalidSensor), anchor + s.seconds * 1000, 1);
        }
      }
      assert rows[..|rows|] == rows;
    }
  }

  // ---------------------------------------------------------------- samples and gaps partition the sequence

  /** The sequence number n of a boot is charged to an "overwritten" gap. */
  ghost predicate Charged(gaps: map<GapKey, GapRow>, b: string, n: nat)
  {
    exists g: nat :: Covers(gaps, b, g, n)
  }

  predicate Covers(gaps: map<GapKey, GapRow>, b: string, g: nat, n: nat)
  {
    var key := GapKey(b, g, Overwritten);
    key in gaps && g - gaps[key].missing <= n < g
  }

  /** Numbers 1..reached of a boot are each stored, or charged to exactly one gap, and never both. */
  ghost predicate Partitioned(r: Rows, b: string, reached: nat)
  {
    && (forall n: nat :: SampleKey(b, n) in r.samples ==> 1 <= n <= reached && !Charged(r.gaps, b, n))
    && (forall n: nat :: 1 <= n <= reached ==> SampleKey(b, n) in r.samples || Charged(r.gaps, b, n))
    && (forall g: nat, n: nat :: Covers(r.gaps, b, g, n) ==> 1 <= n <= reached)
    && (forall g: nat, h: nat, n: nat :: Covers(r.gaps, b, g, n) && Covers(r.gaps, b, h, n) ==> g == h)
    && (forall g: nat :: GapKey(b, g, Overwritten) in r.gaps ==>
          1 <= r.gaps[GapKey(b, g, Overwritten)].missing < g && g <= reached + 1)
  }

  /** Only the given boot's rows differ, except for gap kinds that charge nothing. */
  predicate SameElsewhere(r: Rows, q: Rows, b: string)
  {
    && (forall k :: k in r.samples && k.boot != b ==> k in q.samples && q.samples[k] == r.samples[k])
    && (forall k :: k in q.samples && k.boot != b ==> k in r.samples)
    && (forall k :: k in r.gaps && k.boot != b ==> k in q.gaps && q.gaps[k] == r.gaps[k])
    && (forall k :: k in q.gaps && k.boot != b ==> k in r.gaps)
  }

  ghost predicate SameCharges(x: map<GapKey, GapRow>, y: map<GapKey, GapRow>)
  {
    forall b: string, g: nat :: var k := GapKey(b, g, Overwritten);
      (k in x <==> k in y) && (k in x ==> x[k] == y[k])
  }

  lemma ChargesKeepPartition(r: Rows, q: Rows, b: string, reached: nat)
    requires Partitioned(r, b, reached) && q.samples == r.samples && SameCharges(r.gaps, q.gaps)
    ensures Partitioned(q, b, reached)
  {
    assert forall g: nat, n: nat :: Covers(q.gaps, b, g, n) == Covers(r.gaps, b, g, n);
    assert forall n: nat :: Charged(q.gaps, b, n) == Charged(r.gaps, b, n);
  }

  /** Charging everything up to g - 1 keeps the partition and extends it. */
  lemma GapExtends(r: Rows, b: string, reached: nat, g: nat, time: int)
    requires Partitioned(r, b, reached) && reached + 1 < g
    ensures var q := r.(gaps := InsertIgnore(r.gaps, GapKey(b, g, Overwritten), GapRow(time, g - reached - 1)));
            Partitioned(q, b, g - 1)
  {
    var key := GapKey(b, g, Overwritten);
    var q := r.(gaps := InsertIgnore(r.gaps, key, GapRow(time, g - reached - 1)));
    assert key !in r.gaps;
    forall h: nat, n: nat
      ensures Covers(q.gaps, b, h, n) == (Covers(r.gaps, b, h, n) || (h == g && reached < n < g))
    {
    }
    forall n: nat
      ensures Charged(q.gaps, b, n) == (Charged(r.gaps, b, n) || reached < n < g)
    {
      if reached < n < g {
        assert Covers(q.gaps, b, g, n);
      }
      if h: nat :| Covers(r.gaps, b, h, n) {
        assert Covers(q.gaps, b, h, n);
      }
    }
  }

  lemma SampleExtends(r: Rows, b: string, reached: nat, anchor: int, s: HistorySample)
    requires Partitioned(r, b, reached) && s.sequence == reached + 1
    ensures var q := AfterSample(r, b, anchor, s);
            && Partitioned(q, b, reached + 1)
            && q.samples == r.samples[SampleKey(b, s.sequence) := StoredAs(anchor, s)]
  {
    var q := AfterSample(r, b, anchor, s);
    assert SampleKey(b, s.sequence) !in r.samples;
    assert forall g: nat, n: nat :: Covers(q.gaps, b, g, n) == Covers(r.gaps, b, g, n);
    assert forall n: nat :: Charged(q.gaps, b, n) == Charged(r.gaps, b, n);
  }

  predicate KeepsSamples(r: Rows, q: Rows)
  {
    forall k :: k in r.samples ==> k in q.samples && q.samples[k] == r.samples[k]
  }

  lemma ElsewhereComposes(r: Rows, m: Rows, q: Rows, b: string)
    requires SameElsewhere(r, m, b) && SameElsewhere(m, q, b)
    ensures SameElsewhere(r, q, b)
  {
  }

  lemma SampleElsewhere(m: Rows, b: string, anchor: int, s: HistorySample)
    ensures SameElsewhere(m, AfterSample(m, b, anchor, s), b) && KeepsSamples(m, AfterSample(m, b, anchor, s))
  {
  }

  /** Consecutive samples extend the partition one by one. */
  lemma {:induction false} SamplesExtend(r: Rows, b: string, reached: nat, anchor: int, samples: seq<HistorySample>)
    requires Partitioned(r, b, reached)
    requires forall i :: 0 <= i < |samples| ==> samples[i].sequence == reached + 1 + i
    ensures Partitioned(AfterSamples(r, b, anchor, samples), b, reached + |samples|)
    decreases |samples|
  {
    if samples != [] {
      hide Partitioned, AfterSample, StoredAs;
      var n := |samples| - 1;
      SamplesExtend(r, b, reached, anchor, samples[..n]);
      SampleExtends(AfterSamples(r, b, anchor, samples[..n]), b, reached + n, anchor, samples[n]);
    }
  }

  /** Samples replace nothing and leave other boots alone. */
  lemma {:induction false} SamplesElsewhere(r: Rows, b: string, anchor: int, samples: seq<HistorySample>)
    ensures var q := AfterSamples(r, b, anchor, samples); SameElsewhere(r, q, b) && KeepsSamples(r, q)
    decreases |samples|
  {
    if samples != [] {
      hide AfterSample, SameElsewhere;
      var n := |samples| - 1;
      var m := AfterSamples(r, b, anchor, samples[..n]);
      SamplesElsewhere(r, b, anchor, samples[..n]);
      SampleElsewhere(m, b, anchor, samples[n]);
      ElsewhereComposes(r, m, AfterSample(m, b, anchor, samples[n]), b);
    }
  }

  /** Each row of the page is stored as it came. */
  lemma {:induction false} SamplesStored(r: Rows, b: string, reached: nat, anchor: int, samples: seq<HistorySample>,
                                         i: nat)
    requires Partitioned(r, b, reached) && i < |samples|
    requires forall j :: 0 <= j < |samples| ==> samples[j].sequence == reached + 1 + j
    ensures var q := AfterSamples(r, b, anchor, samples);
            var k := SampleKey(b, reached + 1 + i);
            k in q.samples && q.samples[k] == StoredAs(anchor, samples[i])
    decreases |samples|
  {
    hide Partitioned, SameElsewhere;
    var n := |samples| - 1;
    SamplesExtend(r, b, reached, anchor, samples[..n]);
    var m := AfterSamples(r, b, anchor, samples[..n]);
    SampleExtends(m, b, reached + n, anchor, samples[n]);
    SampleElsewhere(m, b, anchor, samples[n]);
    if i < n {
      SamplesStored(r, b, reached, anchor, samples[..n], i);
    }
  }

  function RowsOf(s: Store): Rows { Rows(s.samples, s.gaps) }

  lemma GapsOfIngest(store: Store, page: HistoryPage, expected: HistoryCursor, time: int, reached: nat)
    requires Partitioned(RowsOf(store), page.boot, reached) && GapStart(page, expected) == reached
    requires page.gap ==> reached < page.first - 1
    ensures var gaps := AfterOverwritten(AfterRestart(store.gaps, page, expected, time), page, expected, time);
            && Partitioned(Rows(store.samples, gaps), page.boot, if page.gap then page.first - 1 else reached)
            && SameElsewhere(RowsOf(store), Rows(store.samples, gaps), page.boot)
  {
    var restart := AfterRestart(store.gaps, page, expected, time);
    ChargesKeepPartition(RowsOf(store), Rows(store.samples, restart), page.boot, reached);
    if page.gap {
      GapExtends(Rows(store.samples, restart), page.boot, reached, page.first, time);
    }
  }

  /**
   * One ingest of a parsed page, taken from the number this boot had reached, extends the partition exactly to the
   * page's cursor, stores every row as it came, replaces nothing and leaves other boots alone. It does not matter
   * whether the sender was honest.
   */
  lemma IngestExtends(store: Store, page: HistoryPage, expected: HistoryCursor, proposed: int, after: nat, reached: nat)
    requires Consistent(page, after) && EffectiveAfter(after, page.last) == reached == GapStart(page, expected)
    requires Partitioned(RowsOf(store), page.boot, reached)
    ensures var s := AfterIngest(store, page, expected, proposed);
            && Partitioned(RowsOf(s), page.boot, page.next) && SameElsewhere(RowsOf(store), RowsOf(s), page.boot)
            && page.next >= reached && KeepsSamples(RowsOf(store), RowsOf(s))
            && (forall i :: 0 <= i < |page.samples| ==>
                  var k := SampleKey(page.boot, page.samples[i].sequence);
                  k in s.samples && s.samples[k] == StoredAs(AnchorOf(store, page, proposed), page.samples[i]))
  {
    hide Partitioned, SameElsewhere, AfterSamples, AfterOverwritten, AfterRestart;
    var anchor := AnchorOf(store, page, proposed);
    var time := FirstTime(page, anchor);
    var gaps := AfterOverwritten(AfterRestart(store.gaps, page, expected, time), page, expected, time);
    GapsOfIngest(store, page, expected, time, reached);
    var from := if page.gap then page.first - 1 else reached;
    var r := Rows(store.samples, gaps);
    SamplesExtend(r, page.boot, from, anchor, page.samples);
    SamplesElsewhere(r, page.boot, anchor, page.samples);
    ElsewhereComposes(RowsOf(store), r, AfterSamples(r, page.boot, anchor, page.samples), page.boot);
    forall i | 0 <= i < |page.samples|
      ensures var k := SampleKey(page.boot, page.samples[i].sequence);
              var q := AfterSamples(r, page.boot, anchor, page.samples);
              k in q.samples && q.samples[k] == StoredAs(anchor, page.samples[i])
    {
      SamplesStored(r, page.boot, from, anchor, page.samples, i);
    }
  }

  // ---------------------------------------------------------------- the other rows of a transaction

  /** A sample of the page whose chamber or PTC reading is missing. */
  predicate MarksInvalid(samples: seq<HistorySample>, sequence: nat)
  {
    exists i ::
      0 <= i < |samples| && samples[i].sequence == sequence && (samples[i].chamber.None? || samples[i].ptc.None?)
  }

  lemma {:induction false} SampleGaps(r: Rows, b: string, anchor: int, samples: seq<HistorySample>, key: GapKey)
    ensures var q := AfterSamples(r, b, anchor, samples);
            && (key in q.gaps <==>
                  key in r.gaps || (key.boot == b && key.kind.InvalidSensor? && MarksInvalid(samples, key.sequence)))
            && (key in r.gaps ==> q.gaps[key] == r.gaps[key])
    decreases |samples|
  {
    if samples != [] {
      var n := |samples| - 1;
      SampleGaps(r, b, anchor, samples[..n], key);
      LastMarks(samples, key.sequence);
      hide MarksInvalid;
    }
  }

  lemma LastMarks(samples: seq<HistorySample>, sequence: nat)
    requires samples != []
    ensures var s := samples[|samples| - 1];
            MarksInvalid(samples, sequence) <==>
              MarksInvalid(samples[..|samples| - 1], sequence) ||
              (s.sequence == sequence && (s.chamber.None? || s.ptc.None?))
  {
    var n := |samples| - 1;
    if MarksInvalid(samples[..n], sequence) {
      var i :| 0 <= i < n && samples[..n][i].sequence == sequence &&
               (samples[..n][i].chamber.None? || samples[..n][i].ptc.None?);
      assert samples[i] == samples[..n][i];
    }
    if MarksInvalid(samples, sequence) {
      var i :| 0 <= i < |samples| && samples[i].sequence == sequence &&
               (samples[i].chamber.None? || samples[i].ptc.None?);
      if i < n {
        assert samples[..n][i] == samples[i];
      }
    }
  }

  /**
   * A transaction adds a "restart" row exactly when the boot differs from a known one before it, an "overwritten" row
   * exactly when the page says so, and an "invalid sensor" row for each of its samples without a chamber or PTC
   * reading; it changes no gap row that was there, keeps the boot's first anchor, and moves the cursor to the page's.
   */
  lemma IngestMarks(store: Store, page: HistoryPage, expected: HistoryCursor, proposed: int, key: GapKey)
    ensures var a := AfterIngest(store, page, expected, proposed);
            && (key in store.gaps ==> key in a.gaps && a.gaps[key] == store.gaps[key])
            && (key !in store.gaps ==>
                  (key in a.gaps <==>
                     && key.boot == page.boot
                     && match key.kind
                        case Restart => key.sequence == 0 && expected.boot != "" && expected.boot != page.boot
                        case Overwritten => page.gap && key.sequence == page.first
                        case InvalidSensor => MarksInvalid(page.samples, key.sequence)))
            && page.boot in a.boots && (page.boot in store.boots ==>
                  a.boots[page.boot].anchor == store.boots[page.boot].anchor)
            && (page.boot !in store.boots ==> a.boots[page.boot].anchor == proposed)
            && (forall b :: b in store.boots && b != page.boot ==> b in a.boots && a.boots[b] == store.boots[b])
            && a.cursor == HistoryCursor(page.boot, page.next)
  {
    hide MarksInvalid, AfterSamples;
    var anchor := AnchorOf(store, page, proposed);
    var time := FirstTime(page, anchor);
    var gaps := AfterOverwritten(AfterRestart(store.gaps, page, expected, time), page, expected, time);
    SampleGaps(Rows(store.samples, gaps), page.boot, anchor, page.samples, key);
  }

  /** The span of a boot covers every sample of the page, and grows no further than to its first and last one. */
  lemma SpanCovers(store: Store, page: HistoryPage, expected: HistoryCursor, proposed: int, i: nat)
    requires i < |page.samples| && Increasing(page.samples)
    ensures var a := AfterIngest(store, page, expected, proposed).boots[page.boot];
            var before := if page.boot in store.boots then store.boots[page.boot] else BootRow(proposed, None, None);
            var first := a.anchor + page.samples[0].seconds * 1000;
            var last := a.anchor + page.samples[|page.samples| - 1].seconds * 1000;
            && a.firstMs.Some? && a.lastMs.Some?
            && a.firstMs.value <= a.anchor + page.samples[i].seconds * 1000 <= a.lastMs.value
            && a.firstMs == (if before.firstMs.Some? && before.firstMs.value <= first then before.firstMs
                             else Some(first))
            && a.lastMs == (if before.lastMs.Some? && before.lastMs.value >= last then before.lastMs else Some(last))
  {
    hide AfterSamples, AfterOverwritten, AfterRestart;
    SecondsGrow(page.samples, 0, i);
    SecondsGrow(page.samples, i, |page.samples| - 1);
  }

  lemma {:induction false} SecondsGrow(samples: seq<HistorySample>, i: nat, j: nat)
    requires Increasing(samples) && i <= j < |samples|
    ensures samples[i].seconds <= samples[j].seconds
    decreases j
  {
    if i < j {
      SecondsGrow(samples, i, j - 1);
    }
  }
}
