/**
 * The device and the phone together: the ring is overwritten, pages are fetched, ingests run late or twice, the device
 * reboots. Boot ids are random, so a reboot never repeats an earlier one.
 */
module HistorySync {
  import opened Common
  import opened HistoryProtocol
  import opened TemperatureHistory
  import R = Recorder

  datatype Batch = Batch(expected: HistoryCursor, page: HistoryPage, after: nat)

  /**
   * `ids` and `logs` are the boots so far and all that each recorded; the last one is running. `cursors`, `refetches`
   * and `batches` hold what any number of synchronisations have in flight. `reached` is history only: the cursor the
   * phone last committed for each boot.
   */
  datatype Sync = Sync(device: string, ids: seq<string>, logs: seq<seq<R.Record>>, store: Store,
                       cursors: set<HistoryCursor>, refetches: set<HistoryCursor>, batches: set<Batch>,
                       reached: seq<nat>)

  datatype Event =
    | NewRecord(seconds: nat, reading: R.Reading)
    | Reboot(id: string)
    | ReadCursor
    | FetchFirst(expected: HistoryCursor, nowS: nat)
    | FetchAgain(expected: HistoryCursor, nowS: nat)
    | Commit(batch: Batch, anchor: int)

  function PowerUp(device: string, id: string): Sync
  {
    Sync(device, [id], [[]], EMPTY_STORE, {}, {}, {}, [0])
  }

  /** The position of a boot among those so far, or -1. */
  function Rank(ids: seq<string>, b: string): (r: int)
    ensures -1 <= r < |ids|
  {
    if ids == [] then -1 else if ids[|ids| - 1] == b then |ids| - 1 else Rank(ids[..|ids| - 1], b)
  }

  predicate Plausible(s: Sync, nowS: nat)
    requires |s.ids| == |s.logs| > 0
  {
    var log := s.logs[|s.logs| - 1];
    nowS <= UINT_MAX && (log != [] ==> log[|log| - 1].seconds <= nowS)
  }

  /** The answer of the running device to a history request. */
  function Answer(s: Sync, after: nat, nowS: nat): Json
    requires |s.ids| == |s.logs| > 0
  {
    Encode(R.PageOf(s.device, s.ids[|s.ids| - 1], s.logs[|s.logs| - 1], after, nowS))
  }

  function Received(s: Sync, expected: HistoryCursor, after: nat, nowS: nat): Sync
    requires |s.ids| == |s.logs| > 0
  {
    match ParseHistoryPage(Answer(s, after, nowS), s.device, after)
    case None => s
    case Some(page) => s.(batches := s.batches + {Batch(expected, page, after)})
  }

  function AddBoot(s: Sync, id: string): Sync
  {
    s.(ids := s.ids + [id], logs := s.logs + [[]], reached := s.reached + [0])
  }

  /** Events that cannot happen now change nothing. */
  function Step(s: Sync, e: Event): Sync
    requires |s.ids| == |s.logs| == |s.reached| > 0
  {
    var current := |s.logs| - 1;
    match e
    case NewRecord(seconds, reading) =>
      var log := s.logs[current];
      if seconds < R.UINT32 && |log| + 1 < R.UINT32 - 1 && (log != [] ==> log[|log| - 1].seconds <= seconds)
      then s.(logs := s.logs[current := R.AfterSample(log, seconds, reading)]) else s
    case Reboot(id) =>
      if BootId(id) && id !in s.ids then AddBoot(s, id) else s
    case ReadCursor => s.(cursors := s.cursors + {s.store.cursor})
    case FetchFirst(expected, nowS) =>
      if expected !in s.cursors || !Plausible(s, nowS) then s
      else if NeedsRefetch(expected, Answer(s, expected.sequence, nowS))
      then s.(refetches := s.refetches + {expected})
      else Received(s, expected, expected.sequence, nowS)
    case FetchAgain(expected, nowS) =>
      if expected !in s.refetches || !Plausible(s, nowS) then s else Received(s, expected, 0, nowS)
    case Commit(batch, anchor) =>
      if batch !in s.batches || !Accepts(s.store, batch.page, batch.expected) then s
      else
        var r := Rank(s.ids, batch.page.boot);
        s.(store := AfterIngest(s.store, batch.page, batch.expected, anchor),
           reached := if r >= 0 then s.reached[r := batch.page.next] else s.reached)
  }

  predicate Shaped(s: Sync) { |s.ids| == |s.logs| == |s.reached| > 0 }

  /** Event k takes state k to state k + 1. */
  predicate Next(ss: seq<Sync>, es: seq<Event>, k: nat)
    requires |ss| == |es| + 1 && k < |es|
  {
    Shaped(ss[k]) && ss[k + 1] == Step(ss[k], es[k])
  }

  /** A run: a device and an empty phone, then the states a sequence of events passes through. */
  predicate Run(ss: seq<Sync>, es: seq<Event>)
  {
    && |ss| == |es| + 1 && (forall k :: 0 <= k < |ss| ==> Shaped(ss[k])) && PoweredUp(ss[0])
    && (forall k: nat {:trigger Next(ss, es, k)} :: k < |es| ==> Next(ss, es, k))
  }

  predicate PoweredUp(s: Sync)
    requires Shaped(s)
  {
    DeviceId(s.device) && BootId(s.ids[0]) && s == PowerUp(s.device, s.ids[0])
  }

  // ---------------------------------------------------------------- the invariant

  predicate DeviceSane(s: Sync)
  {
    && |s.ids| == |s.logs| == |s.reached| > 0 && DeviceId(s.device)
    && (forall i :: 0 <= i < |s.ids| ==> BootId(s.ids[i]) && R.Chronicle(s.logs[i]))
    && (forall i, j :: 0 <= i < j < |s.ids| ==> s.ids[i] != s.ids[j])
  }

  /** A cursor somebody holds: none at all, or one within what that boot had recorded. */
  predicate CursorSane(s: Sync, c: HistoryCursor)
    requires |s.ids| == |s.logs|
  {
    var r := Rank(s.ids, c.boot);
    if r < 0 then c == NO_CURSOR else c.sequence <= |s.logs[r]|
  }

  /** A page in flight is of its expected boot or a later one, and every row is what that boot recorded. */
  predicate BatchSane(s: Sync, b: Batch)
    requires |s.ids| == |s.logs|
  {
    var j := Rank(s.ids, b.page.boot);
    var e := Rank(s.ids, b.expected.boot);
    && Consistent(b.page, b.after) && CursorSane(s, b.expected) && 0 <= j && e <= j
    && b.page.last <= |s.logs[j]|
    && (if e == j then b.after == b.expected.sequence <= b.page.last else b.after == 0)
    && (forall i :: 0 <= i < |b.page.samples| ==>
          && 1 <= b.page.samples[i].sequence <= |s.logs[j]|
          && b.page.samples[i] == ViewSample(s.logs[j][b.page.samples[i].sequence - 1]))
  }

  predicate FlightSane(s: Sync)
    requires |s.ids| == |s.logs| > 0
  {
    && (forall c :: c in s.cursors ==> CursorSane(s, c))
    && (forall c :: c in s.refetches ==> CursorSane(s, c) && Rank(s.ids, c.boot) < |s.ids| - 1)
    && (forall b :: b in s.batches ==> BatchSane(s, b))
  }

  /** Every stored row of boot i is what it recorded, on that boot's own anchor. */
  predicate Faithful(s: Sync, i: nat)
    requires i < |s.ids| == |s.logs|
  {
    forall k :: k in s.store.samples && k.boot == s.ids[i] ==>
      && 1 <= k.sequence <= |s.logs[i]| && k.boot in s.store.boots
      && s.store.samples[k] == StoredAs(s.store.boots[k.boot].anchor, ViewSample(s.logs[i][k.sequence - 1]))
  }

  /** One boot's share of the phone: everything up to `reached` is stored faithfully or charged, nothing beyond. */
  ghost predicate BootSane(s: Sync, i: nat)
    requires |s.ids| == |s.logs| == |s.reached|
    requires i < |s.ids|
  {
    Partitioned(RowsOf(s.store), s.ids[i], s.reached[i]) && s.reached[i] <= |s.logs[i]| && Faithful(s, i)
  }

  ghost predicate StoreSane(s: Sync)
    requires |s.ids| == |s.logs| == |s.reached| > 0
  {
    var r := Rank(s.ids, s.store.cursor.boot);
    && (forall i :: 0 <= i < |s.ids| ==> BootSane(s, i))
    && (if r < 0 then s.store.cursor == NO_CURSOR else s.store.cursor.sequence == s.reached[r])
    && (forall i :: r < i < |s.ids| ==> s.reached[i] == 0)
    && (forall k :: k in s.store.samples ==> k.boot in s.ids) && (forall k :: k in s.store.gaps ==> k.boot in s.ids)
  }

  ghost predicate Sane(s: Sync) { DeviceSane(s) && FlightSane(s) && StoreSane(s) }

  // ---------------------------------------------------------------- ranks

  lemma {:induction false} RankFinds(ids: seq<string>, i: nat)
    requires i < |ids| && forall j, k :: 0 <= j < k < |ids| ==> ids[j] != ids[k]
    ensures Rank(ids, ids[i]) == i
  {
    if i < |ids| - 1 {
      RankFinds(ids[..|ids| - 1], i);
    }
  }

  lemma {:induction false} RankIsIndex(ids: seq<string>, b: string)
    ensures var r := Rank(ids, b); if r < 0 then b !in ids else ids[r] == b
  {
    if ids != [] && ids[|ids| - 1] != b {
      RankIsIndex(ids[..|ids| - 1], b);
    }
  }

  /** A new boot changes nobody's rank but its own. */
  lemma RankAfterReboot(ids: seq<string>, id: string, b: string)
    ensures Rank(ids + [id], b) == if b == id then |ids| else Rank(ids, b)
  {
    assert (ids + [id])[..|ids|] == ids;
  }

  // ---------------------------------------------------------------- every event keeps it

  /** A longer running chronicle keeps everything in flight and in the store valid. */
  predicate Extends(s: Sync, t: Sync)
  {
    && |s.ids| == |s.logs| == |s.reached| > 0
    && t.device == s.device && t.ids == s.ids && |t.logs| == |s.logs| && t.reached == s.reached
    && t.store == s.store && t.cursors == s.cursors && t.refetches == s.refetches && t.batches == s.batches
    && forall i :: 0 <= i < |s.logs| ==> s.logs[i] <= t.logs[i]
  }

  lemma ExtensionKeepsFlight(s: Sync, t: Sync)
    requires Extends(s, t) && FlightSane(s)
    ensures FlightSane(t)
  {
  }

  lemma ExtensionKeepsStore(s: Sync, t: Sync)
    requires Extends(s, t) && StoreSane(s)
    ensures StoreSane(t)
  {
    hide Partitioned;
    forall i | 0 <= i < |s.ids|
      ensures BootSane(t, i)
    {
      assert BootSane(s, i);
    }
  }

  lemma RecordKeepsSane(s: Sync, seconds: nat, reading: R.Reading)
    requires Sane(s)
    ensures Sane(Step(s, NewRecord(seconds, reading)))
  {
    hide FlightSane, StoreSane, R.RecordOf;
    var t := Step(s, NewRecord(seconds, reading));
    var log := s.logs[|s.logs| - 1];
    if t != s {
      R.SampleKeepsChronicle(log, seconds, reading);
      assert log <= R.AfterSample(log, seconds, reading);
      assert Extends(s, t);
      ExtensionKeepsFlight(s, t);
      ExtensionKeepsStore(s, t);
    }
  }

  lemma RebootKeepsCursor(s: Sync, id: string, c: HistoryCursor)
    requires |s.ids| == |s.logs| && id != c.boot && CursorSane(s, c)
    ensures CursorSane(AddBoot(s, id), c)
  {
    RankAfterReboot(s.ids, id, c.boot);
  }

  lemma RebootKeepsBatch(s: Sync, id: string, b: Batch)
    requires |s.ids| == |s.logs| && id != b.expected.boot && id != b.page.boot && BatchSane(s, b)
    ensures BatchSane(AddBoot(s, id), b)
  {
    hide Consistent, ViewSample;
    RankAfterReboot(s.ids, id, b.expected.boot);
    RankAfterReboot(s.ids, id, b.page.boot);
  }

  lemma RebootKeepsFlight(s: Sync, id: string)
    requires DeviceSane(s) && FlightSane(s) && BootId(id) && id !in s.ids
    ensures var t := AddBoot(s, id); DeviceSane(t) && FlightSane(t)
  {
    hide CursorSane, BatchSane, R.Chronicle;
    var t := AddBoot(s, id);
    RankIsIndex(s.ids, id);
    NotYetKnown(s, id);
    assert R.Chronicle([]) by { EmptyChronicle(); }
    forall c | c in s.cursors + s.refetches
      ensures CursorSane(t, c) && Rank(t.ids, c.boot) == Rank(s.ids, c.boot)
    {
      RebootKeepsCursor(s, id, c);
      RankAfterReboot(s.ids, id, c.boot);
    }
    forall b | b in s.batches
      ensures BatchSane(t, b)
    {
      RebootKeepsBatch(s, id, b);
    }
  }

  lemma EmptyChronicle()
    ensures R.Chronicle([])
  {
  }

  /** Nothing in flight can name a boot id that has not been drawn yet. */
  lemma NotYetKnown(s: Sync, id: string)
    requires DeviceSane(s) && FlightSane(s) && id != "" && Rank(s.ids, id) < 0
    ensures forall c :: c in s.cursors + s.refetches ==> c.boot != id
    ensures forall b :: b in s.batches ==> b.expected.boot != id && b.page.boot != id
  {
  }

  lemma NothingIsPartitioned(r: Rows, b: string)
    requires forall k :: k in r.samples ==> k.boot != b
    requires forall k :: k in r.gaps ==> k.boot != b
    ensures Partitioned(r, b, 0)
  {
  }

  lemma RebootKeepsBoot(s: Sync, id: string, i: nat)
    requires |s.ids| == |s.logs| == |s.reached| && i < |s.ids| && BootSane(s, i)
    ensures BootSane(AddBoot(s, id), i)
  {
    hide Partitioned;
  }

  lemma RebootAddsBoot(s: Sync, id: string)
    requires |s.ids| == |s.logs| == |s.reached| && id !in s.ids
    requires forall k :: k in s.store.samples ==> k.boot in s.ids
    requires forall k :: k in s.store.gaps ==> k.boot in s.ids
    ensures BootSane(AddBoot(s, id), |s.ids|)
  {
    hide Partitioned;
    NothingIsPartitioned(RowsOf(s.store), id);
  }

  lemma RebootKeepsStore(s: Sync, id: string)
    requires DeviceSane(s) && StoreSane(s) && BootId(id) && id !in s.ids
    ensures StoreSane(AddBoot(s, id))
  {
    hide BootSane, R.Chronicle;
    var t := AddBoot(s, id);
    RankAfterReboot(s.ids, id, s.store.cursor.boot);
    RankIsIndex(s.ids, s.store.cursor.boot);
    RebootAddsBoot(s, id);
    forall i | 0 <= i < |t.ids|
      ensures BootSane(t, i)
    {
      if i < |s.ids| {
        RebootKeepsBoot(s, id, i);
      }
    }
    if Rank(s.ids, s.store.cursor.boot) < 0 {
      assert id != "";
    }
  }

  // ---------------------------------------------------------------- fetches

  /** A page of the running boot, asked for by somebody entitled to ask, is accepted and sane in flight. */
  lemma ReceivedBatch(s: Sync, expected: HistoryCursor, after: nat, nowS: nat)
    requires DeviceSane(s) && CursorSane(s, expected) && Plausible(s, nowS)
    requires var e := Rank(s.ids, expected.boot);
             if e == |s.ids| - 1 then after == expected.sequence else after == 0
    ensures var page := ParseHistoryPage(Answer(s, after, nowS), s.device, after);
            page.Some? && BatchSane(s, Batch(expected, page.value, after))
  {
    hide R.PageOf, Consistent, Plausible, R.Chronicle, ViewSample, Encode, ParseHistoryPage;
    var j := |s.ids| - 1;
    var log := s.logs[j];
    var p := R.PageOf(s.device, s.ids[j], log, after, nowS);
    assert R.Chronicle(log);
    ChronicleBounds(log);
    PlausibleClock(s, nowS);
    UpperOfDevice(s.device);
    HonestPageParses(s.device, s.ids[j], log, after, nowS, s.device);
    ParsedPageIsConsistent(Encode(p), s.device, after);
    PageArithmetic(s.device, s.ids[j], log, after, nowS);
    PageNames(s.device, s.ids[j], log, after, nowS);
    RankFinds(s.ids, j);
    forall i | 0 <= i < |p.samples|
      ensures 1 <= p.samples[i].number <= |log| && p.samples[i] == log[p.samples[i].number - 1]
    {
      PageRows(s.device, s.ids[j], log, after, nowS, i);
    }
    ViewedRows(p.samples, log);
  }

  lemma ReceivedIsSane(s: Sync, expected: HistoryCursor, after: nat, nowS: nat)
    requires DeviceSane(s) && FlightSane(s) && CursorSane(s, expected) && Plausible(s, nowS)
    requires var e := Rank(s.ids, expected.boot);
             if e == |s.ids| - 1 then after == expected.sequence else after == 0
    ensures FlightSane(Received(s, expected, after, nowS))
  {
    hide Answer, ParseHistoryPage, R.Chronicle, Plausible, Consistent, ViewSample;
    ReceivedBatch(s, expected, after, nowS);
  }

  lemma PlausibleClock(s: Sync, nowS: nat)
    requires DeviceSane(s) && Plausible(s, nowS)
    ensures nowS <= UINT_MAX
    ensures var log := s.logs[|s.logs| - 1]; log != [] ==> log[|log| - 1].seconds <= nowS
  {
  }

  lemma ChronicleBounds(log: seq<R.Record>)
    requires R.Chronicle(log)
    ensures |log| < UINT_MAX
  {
  }

  lemma ViewedRows(rows: seq<R.Record>, log: seq<R.Record>)
    requires forall i :: 0 <= i < |rows| ==> 1 <= rows[i].number <= |log| && rows[i] == log[rows[i].number - 1]
    ensures forall i :: 0 <= i < |rows| ==>
              var v := ViewSamples(rows)[i]; 1 <= v.sequence <= |log| && v == ViewSample(log[v.sequence - 1])
  {
  }

  lemma AnswerNames(s: Sync, after: nat, nowS: nat)
    requires DeviceSane(s)
    ensures Text(Field(Answer(s, after, nowS), "boot")) == s.ids[|s.ids| - 1]
  {
    hide R.PageOf, R.Chronicle;
    PageNames(s.device, s.ids[|s.ids| - 1], s.logs[|s.logs| - 1], after, nowS);
    FieldsReadBack(R.PageOf(s.device, s.ids[|s.ids| - 1], s.logs[|s.logs| - 1], after, nowS));
  }

  lemma RefetchKeepsFlight(s: Sync, c: HistoryCursor)
    requires DeviceSane(s) && FlightSane(s) && CursorSane(s, c) && Rank(s.ids, c.boot) < |s.ids| - 1
    ensures FlightSane(s.(refetches := s.refetches + {c}))
  {
    hide R.Chronicle, Rank, Consistent;
  }

  lemma HeldCursorIsSane(s: Sync, c: HistoryCursor)
    requires DeviceSane(s) && FlightSane(s)
    ensures c in s.cursors ==> CursorSane(s, c)
    ensures c in s.refetches ==> CursorSane(s, c) && Rank(s.ids, c.boot) < |s.ids| - 1
  {
    hide R.Chronicle, BatchSane;
  }

  lemma FirstFetchKeepsFlight(s: Sync, c: HistoryCursor, nowS: nat)
    requires DeviceSane(s) && FlightSane(s) && c in s.cursors && Plausible(s, nowS)
    ensures FlightSane(if NeedsRefetch(c, Answer(s, c.sequence, nowS)) then s.(refetches := s.refetches + {c})
                       else Received(s, c, c.sequence, nowS))
  {
    hide Plausible, Answer, Received, R.Chronicle, FlightSane, CursorSane, Rank;
    HeldCursorIsSane(s, c);
    AnswerNames(s, c.sequence, nowS);
    LatestRank(s, c);
    if NeedsRefetch(c, Answer(s, c.sequence, nowS)) {
      RefetchKeepsFlight(s, c);
    } else {
      ReceivedIsSane(s, c, c.sequence, nowS);
    }
  }

  lemma SecondFetchKeepsFlight(s: Sync, c: HistoryCursor, nowS: nat)
    requires DeviceSane(s) && FlightSane(s) && c in s.refetches && Plausible(s, nowS)
    ensures FlightSane(Received(s, c, 0, nowS))
  {
    hide Plausible, Answer, Received, R.Chronicle, FlightSane, CursorSane, Rank;
    HeldCursorIsSane(s, c);
    ReceivedIsSane(s, c, 0, nowS);
  }

  lemma FetchKeepsFlight(s: Sync, e: Event)
    requires DeviceSane(s) && FlightSane(s) && (e.FetchFirst? || e.FetchAgain?)
    ensures FlightSane(Step(s, e))
  {
    hide Plausible, Answer, Received, FlightSane, DeviceSane, NeedsRefetch;
    SaneIsShaped(s);
    if Plausible(s, e.nowS) {
      if e.FetchFirst? && e.expected in s.cursors {
        FirstFetchKeepsFlight(s, e.expected, e.nowS);
      }
      if e.FetchAgain? && e.expected in s.refetches {
        SecondFetchKeepsFlight(s, e.expected, e.nowS);
      }
    }
  }

  /** Only a cursor of the running boot carries its id. */
  lemma LatestRank(s: Sync, c: HistoryCursor)
    requires DeviceSane(s) && CursorSane(s, c)
    ensures Rank(s.ids, c.boot) == |s.ids| - 1 <==> c.boot == s.ids[|s.ids| - 1]
  {
    hide R.Chronicle;
    RankIsIndex(s.ids, c.boot);
    RankFinds(s.ids, |s.ids| - 1);
  }

  // ---------------------------------------------------------------- commits

  /** The number a committing page continues from is exactly the number its boot had reached. */
  lemma CommitContinues(s: Sync, b: Batch)
    requires Sane(s) && b in s.batches && Accepts(s.store, b.page, b.expected)
    ensures var j := Rank(s.ids, b.page.boot);
            && 0 <= j && s.ids[j] == b.page.boot && Rank(s.ids, s.store.cursor.boot) <= j
            && EffectiveAfter(b.after, b.page.last) == s.reached[j] == GapStart(b.page, b.expected)
  {
    hide BootSane, R.Chronicle, Consistent;
    RankIsIndex(s.ids, b.page.boot);
    RankIsIndex(s.ids, b.expected.boot);
    assert BatchSane(s, b);
  }

  lemma OtherRows(r: Rows, q: Rows, b: string, other: string, reached: nat)
    requires SameElsewhere(r, q, b) && other != b && Partitioned(r, other, reached)
    ensures Partitioned(q, other, reached)
  {
    assert forall g: nat, n: nat :: Covers(q.gaps, other, g, n) == Covers(r.gaps, other, g, n);
    assert forall n: nat :: Charged(q.gaps, other, n) == Charged(r.gaps, other, n);
  }

  lemma AnchorsKept(store: Store, page: HistoryPage, expected: HistoryCursor, anchor: int)
    ensures var t := AfterIngest(store, page, expected, anchor);
            && page.boot in t.boots && t.boots[page.boot].anchor == AnchorOf(store, page, anchor)
            && (forall b :: b in store.boots ==> b in t.boots && t.boots[b].anchor == store.boots[b].anchor)
  {
    hide AfterSamples, AfterOverwritten, AfterRestart, FirstTime;
  }

  lemma CommitKeepsOthers(s: Sync, t: Sync, b: string, i: nat)
    requires |s.ids| == |s.logs| == |s.reached| && i < |s.ids| && s.ids[i] != b && BootSane(s, i)
    requires t.ids == s.ids && t.logs == s.logs && |t.reached| == |s.reached| && t.reached[i] == s.reached[i]
    requires SameElsewhere(RowsOf(s.store), RowsOf(t.store), b)
    requires forall x :: x in s.store.boots ==> x in t.store.boots && t.store.boots[x].anchor == s.store.boots[x].anchor
    ensures BootSane(t, i)
  {
    hide Partitioned;
    OtherRows(RowsOf(s.store), RowsOf(t.store), b, s.ids[i], s.reached[i]);
  }

  /** After a commit, every row of its boot is either an old one or a row of the page. */
  lemma CommitIsFaithful(s: Sync, b: Batch, anchor: int, j: nat)
    requires Sane(s) && b in s.batches && j < |s.ids| && s.ids[j] == b.page.boot
    requires EffectiveAfter(b.after, b.page.last) == s.reached[j] == GapStart(b.page, b.expected)
    ensures var t := s.(store := AfterIngest(s.store, b.page, b.expected, anchor)); Faithful(t, j)
  {
    hide R.Chronicle, AfterIngest, ViewSample, StoredAs, Partitioned, Consistent, SameElsewhere;
    var t := AfterIngest(s.store, b.page, b.expected, anchor);
    assert BootSane(s, j) && BatchSane(s, b);
    RankFinds(s.ids, j);
    IngestExtends(s.store, b.page, b.expected, anchor, b.after, s.reached[j]);
    AnchorsKept(s.store, b.page, b.expected, anchor);
    forall k | k in t.samples && k.boot == s.ids[j]
      ensures 1 <= k.sequence <= |s.logs[j]|
      ensures t.samples[k] == StoredAs(t.boots[k.boot].anchor, ViewSample(s.logs[j][k.sequence - 1]))
    {
      if k !in s.store.samples {
        NewRowIsOfPage(s.store, b.page, b.expected, anchor, k);
      }
    }
  }

  lemma {:induction false} NewRowsAreOfPage(r: Rows, boot: string, anchor: int, samples: seq<HistorySample>,
                                            k: SampleKey)
    requires k in AfterSamples(r, boot, anchor, samples).samples && k !in r.samples
    ensures exists i :: 0 <= i < |samples| && k == SampleKey(boot, samples[i].sequence)
    decreases |samples|
  {
    if samples != [] {
      var n := |samples| - 1;
      if k in AfterSamples(r, boot, anchor, samples[..n]).samples {
        NewRowsAreOfPage(r, boot, anchor, samples[..n], k);
        var i :| 0 <= i < n && k == SampleKey(boot, samples[..n][i].sequence);
        assert k == SampleKey(boot, samples[i].sequence);
      } else {
        assert k == SampleKey(boot, samples[n].sequence);
      }
    }
  }

  lemma NewRowIsOfPage(store: Store, page: HistoryPage, expected: HistoryCursor, anchor: int, k: SampleKey)
    requires k in AfterIngest(store, page, expected, anchor).samples && k !in store.samples
    ensures exists i :: 0 <= i < |page.samples| && k == SampleKey(page.boot, page.samples[i].sequence)
  {
    hide AfterSamples, AfterOverwritten, AfterRestart, FirstTime;
    var a := AnchorOf(store, page, anchor);
    var time := FirstTime(page, a);
    var gaps := AfterOverwritten(AfterRestart(store.gaps, page, expected, time), page, expected, time);
    NewRowsAreOfPage(Rows(store.samples, gaps), page.boot, a, page.samples, k);
  }

  lemma NextWithinLast(p: HistoryPage, after: nat)
    requires Consistent(p, after)
    ensures p.next <= p.last
  {
  }

  lemma CommitKeepsStore(s: Sync, b: Batch, anchor: int)
    requires Sane(s) && b in s.batches && Accepts(s.store, b.page, b.expected)
    ensures StoreSane(Step(s, Commit(b, anchor)))
  {
    hide R.Chronicle, AfterIngest, Partitioned, SameElsewhere, Consistent, KeepsSamples, Faithful;
    CommitContinues(s, b);
    var j := Rank(s.ids, b.page.boot);
    var t := Step(s, Commit(b, anchor));
    assert BootSane(s, j) && BatchSane(s, b);
    IngestExtends(s.store, b.page, b.expected, anchor, b.after, s.reached[j]);
    AnchorsKept(s.store, b.page, b.expected, anchor);
    CommitIsFaithful(s, b, anchor, j);
    FaithfulIgnoresReached(s.(store := t.store), t, j);
    NextWithinLast(b.page, b.after);
    forall i | 0 <= i < |t.ids|
      ensures BootSane(t, i)
    {
      if i != j {
        CommitKeepsOthers(s, t, b.page.boot, i);
      }
    }
    CommitKnowsBoots(s, b, anchor);
    CommittedCursor(s.store, b.page, b.expected, anchor);
  }

  lemma FaithfulIgnoresReached(s: Sync, t: Sync, j: nat)
    requires j < |s.ids| == |s.logs| && t.ids == s.ids && t.logs == s.logs && t.store == s.store && Faithful(s, j)
    ensures Faithful(t, j)
  {
  }

  lemma CommittedCursor(store: Store, page: HistoryPage, expected: HistoryCursor, anchor: int)
    ensures AfterIngest(store, page, expected, anchor).cursor == HistoryCursor(page.boot, page.next)
  {
    hide AfterSamples, AfterOverwritten, AfterRestart, FirstTime;
  }

  /** A commit writes rows of its own boot only. */
  lemma CommitKnowsBoots(s: Sync, b: Batch, anchor: int)
    requires |s.ids| == |s.logs| == |s.reached| > 0 && b.page.boot in s.ids
    requires forall k :: k in s.store.samples ==> k.boot in s.ids
    requires forall k :: k in s.store.gaps ==> k.boot in s.ids
    requires var t := AfterIngest(s.store, b.page, b.expected, anchor);
             SameElsewhere(RowsOf(s.store), RowsOf(t), b.page.boot)
    ensures var t := AfterIngest(s.store, b.page, b.expected, anchor);
            (forall k :: k in t.samples ==> k.boot in s.ids) && (forall k :: k in t.gaps ==> k.boot in s.ids)
  {
    hide AfterIngest;
  }

  lemma CommitKeepsFlight(s: Sync, b: Batch, anchor: int)
    requires DeviceSane(s) && FlightSane(s)
    ensures DeviceSane(Step(s, Commit(b, anchor))) && FlightSane(Step(s, Commit(b, anchor)))
  {
    hide AfterIngest, R.Chronicle, Consistent;
  }

  lemma ReadKeepsFlight(s: Sync)
    requires Sane(s)
    ensures FlightSane(Step(s, ReadCursor))
  {
    hide R.Chronicle, Consistent;
    var r := Rank(s.ids, s.store.cursor.boot);
    if r >= 0 {
      assert BootSane(s, r);
    }
  }

  lemma RebootKeepsSane(s: Sync, id: string)
    requires Sane(s)
    ensures Sane(Step(s, Reboot(id)))
  {
    hide StoreSane, FlightSane, R.Chronicle;
    if BootId(id) && id !in s.ids {
      RebootKeepsFlight(s, id);
      RebootKeepsStore(s, id);
    }
  }

  lemma RequestKeepsSane(s: Sync, e: Event)
    requires Sane(s) && (e.ReadCursor? || e.FetchFirst? || e.FetchAgain?)
    ensures Sane(Step(s, e))
  {
    hide FlightSane, StoreSane, DeviceSane, Answer, Plausible, ParseHistoryPage, NeedsRefetch;
    SaneIsShaped(s);
    RequestMovesFlight(s, e);
    if e.ReadCursor? {
      ReadKeepsFlight(s);
    } else {
      FetchKeepsFlight(s, e);
    }
    StoreIgnoresFlight(s, Step(s, e));
    DeviceIgnoresFlight(s, Step(s, e));
  }

  lemma SaneIsShaped(s: Sync)
    requires DeviceSane(s)
    ensures |s.ids| == |s.logs| == |s.reached| > 0
  {
  }

  lemma RequestMovesFlight(s: Sync, e: Event)
    requires |s.ids| == |s.logs| == |s.reached| > 0 && (e.ReadCursor? || e.FetchFirst? || e.FetchAgain?)
    ensures var t := Step(s, e); t == s.(cursors := t.cursors, refetches := t.refetches, batches := t.batches)
  {
    hide Answer, Plausible, ParseHistoryPage, NeedsRefetch;
  }

  lemma DeviceIgnoresFlight(s: Sync, t: Sync)
    requires DeviceSane(s) && t == s.(cursors := t.cursors, refetches := t.refetches, batches := t.batches)
    ensures DeviceSane(t)
  {
    hide R.Chronicle;
  }

  lemma CommitKeepsSane(s: Sync, b: Batch, anchor: int)
    requires Sane(s)
    ensures Sane(Step(s, Commit(b, anchor)))
  {
    hide StoreSane, FlightSane, AfterIngest, R.Chronicle;
    CommitKeepsFlight(s, b, anchor);
    if b in s.batches && Accepts(s.store, b.page, b.expected) {
      CommitKeepsStore(s, b, anchor);
    }
  }

  lemma StepKeepsSane(s: Sync, e: Event)
    requires Sane(s)
    ensures Sane(Step(s, e))
  {
    SaneIsShaped(s);
    hide Sane, Step;
    match e
    case NewRecord(seconds, reading) => RecordKeepsSane(s, seconds, reading);
    case Reboot(id) => RebootKeepsSane(s, id);
    case Commit(b, anchor) => CommitKeepsSane(s, b, anchor);
    case _ => RequestKeepsSane(s, e);
  }

  lemma StoreIgnoresFlight(s: Sync, t: Sync)
    requires |s.ids| == |s.logs| == |s.reached| > 0 && StoreSane(s)
    requires t == s.(cursors := t.cursors, refetches := t.refetches, batches := t.batches)
    ensures StoreSane(t)
  {
    hide Partitioned;
    forall i | 0 <= i < |s.ids|
      ensures BootSane(t, i)
    {
      assert BootSane(s, i);
    }
  }

  lemma PowerUpIsSane(device: string, id: string)
    requires DeviceId(device) && BootId(id)
    ensures Sane(PowerUp(device, id))
  {
    var s := PowerUp(device, id);
    NothingIsPartitioned(RowsOf(s.store), id);
    assert BootSane(s, 0);
  }

  lemma {:induction false} RunKeepsSane(ss: seq<Sync>, es: seq<Event>, k: nat)
    requires Run(ss, es) && k <= |es|
    ensures Sane(ss[k])
  {
    hide Sane, Step, PowerUp;
    if k == 0 {
      PowerUpIsSane(ss[0].device, ss[0].ids[0]);
    } else {
      RunKeepsSane(ss, es, k - 1);
      assert Next(ss, es, k - 1);
      StepKeepsSane(ss[k - 1], es[k - 1]);
    }
  }

  predicate ShowsTenths(c: Option<real>, tenths: Option<int>)
  {
    if tenths.None? then c.None? else c.Some? && c.value * 10.0 == tenths.value as real
  }

  /** A stored row shows a record: its time on the boot's anchor, its temperatures in degrees, its flags and fault. */
  predicate ShowsRecord(row: StoredSample, anchor: int, r: R.Record)
  {
    && row.time == anchor + r.seconds * 1000 && ShowsTenths(row.chamber, r.chamber) && ShowsTenths(row.ptc, r.ptc)
    && ShowsTenths(row.target, r.target) && row.paused == (r.flags >= 4) && row.flags == r.flags && row.fault == r.fault
  }

  lemma StoredShowsRecord(anchor: int, r: R.Record)
    requires R.Recordable(r)
    ensures ShowsRecord(StoredAs(anchor, ViewSample(r)), anchor, r)
  {
  }

  lemma ChronicleRows(log: seq<R.Record>, n: nat)
    requires R.Chronicle(log) && 1 <= n <= |log|
    ensures R.Recordable(log[n - 1])
  {
  }

  /**
   * For every boot, after any run: the sequence numbers up to the phone's last cursor are each either stored, exactly
   * as recorded, or charged to exactly one "overwritten" gap; nothing lies beyond; and the phone's cursor is where its
   * boot's share ends.
   */
  lemma PhonePartitionsHistory(ss: seq<Sync>, es: seq<Event>, k: nat, i: nat, n: nat)
    requires Run(ss, es) && k <= |es| && i < |ss[k].ids|
    ensures var s := ss[k];
            var key := SampleKey(s.ids[i], n);
            var charges := iset g: nat | Covers(s.store.gaps, s.ids[i], g, n);
            && s.reached[i] <= |s.logs[i]|
            && (s.store.cursor.boot == s.ids[i] ==> s.store.cursor.sequence == s.reached[i])
            && (if 1 <= n <= s.reached[i]
                then if key in s.store.samples
                     then charges == iset{} && key.boot in s.store.boots
                         && ShowsRecord(s.store.samples[key], s.store.boots[key.boot].anchor, s.logs[i][n - 1])
                     else exists g: nat :: charges == iset{g}
                else key !in s.store.samples && charges == iset{})
  {
    hide R.Chronicle, R.Recordable, ViewSample, StoredAs, FlightSane, Step, Covers, PowerUp, ShowsRecord;
    RunKeepsSane(ss, es, k);
    var s := ss[k];
    assert BootSane(s, i);
    if SampleKey(s.ids[i], n) in s.store.samples {
      ChronicleRows(s.logs[i], n);
      StoredShowsRecord(s.store.boots[s.ids[i]].anchor, s.logs[i][n - 1]);
    }
    RankFinds(s.ids, i);
    var b := s.ids[i];
    var charges := iset g: nat | Covers(s.store.gaps, b, g, n);
    if Charged(s.store.gaps, b, n) {
      var g: nat :| Covers(s.store.gaps, b, g, n);
      assert charges == iset{g};
    } else {
      assert charges == iset{};
    }
  }
}
