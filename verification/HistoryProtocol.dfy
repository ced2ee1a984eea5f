/** HistoryProtocol.kt: fail-closed validation of a history page, against what the firmware's recorder emits. */
module HistoryProtocol {
  import opened Common
  import R = Recorder

  const UINT_MAX := 4294967295
  const PAGE_ROWS := 32

  datatype Json =
    | JNull
    | JBool(b: bool)
    | JNum(n: real)
    | JStr(s: string)
    | JArr(items: seq<Json>)
    | JObj(fields: map<string, Json>)

  datatype HistoryCursor = HistoryCursor(boot: string, sequence: nat)
  datatype HistorySample = HistorySample(sequence: nat, seconds: nat, chamber: Option<real>, ptc: Option<real>,
                                         target: Option<real>, flags: nat, fault: nat)
  datatype HistoryPage = HistoryPage(device: string, boot: string, nowSeconds: nat, first: nat, next: nat, last: nat,
                                     gap: bool, samples: seq<HistorySample>)

  const NO_CURSOR := HistoryCursor("", 0)

  // ---------------------------------------------------------------- the firmware side: page to JSON

  function Number(n: nat): Json { JNum(n as real) }

  function Degrees(t: Option<int>): Option<real> { if t.Some? then Some(t.value as real / 10.0) else None }

  function EncodeTemperature(t: Option<int>): Json
  {
    if t.None? then JNull else JNum(t.value as real / 10.0)
  }

  function EncodeRow(r: R.Record): Json
  {
    JArr([Number(r.number), Number(r.seconds), EncodeTemperature(r.chamber), EncodeTemperature(r.ptc),
          EncodeTemperature(r.target), Number(r.flags), Number(r.fault)])
  }

  function EncodeRows(rows: seq<R.Record>): (json: seq<Json>)
    ensures |json| == |rows|
  {
    if rows == [] then [] else [EncodeRow(rows[0])] + EncodeRows(rows[1..])
  }

  function Encode(p: R.Page): Json
  {
    JObj(map["device_id" := JStr(p.device), "boot" := JStr(p.boot), "now_s" := Number(p.nowS),
             "first" := Number(p.first), "next" := Number(p.next), "last" := Number(p.last), "gap" := JBool(p.gap),
             "samples" := JArr(EncodeRows(p.samples))])
  }

  // ---------------------------------------------------------------- the phone side: JSON to page

  predicate IsHexUpper(c: char) { '0' <= c <= '9' || 'A' <= c <= 'F' }

  predicate IsHex(c: char) { IsHexUpper(c) || 'a' <= c <= 'f' }

  function UpperChar(c: char): char { if 'a' <= c <= 'z' then (c as int - 32) as char else c }

  function Upper(s: string): (u: string)
    ensures |u| == |s| && forall i :: 0 <= i < |s| ==> u[i] == UpperChar(s[i])
  {
    seq(|s|, i requires 0 <= i < |s| => UpperChar(s[i]))
  }

  predicate DeviceId(s: string) { |s| == 12 && forall i :: 0 <= i < |s| ==> IsHexUpper(s[i]) }

  predicate BootId(s: string) { |s| == 16 && forall i :: 0 <= i < |s| ==> IsHex(s[i]) }

  function Unsigned(j: Json): Option<nat>
  {
    if j.JNum? && 0.0 <= j.n <= UINT_MAX as real && j.n == j.n.Floor as real then Some(j.n.Floor) else None
  }

  /** A null row entry is a missing value; anything but a number in range fails the page. */
  function Temperature(j: Json): Option<Option<real>>
  {
    if j.JNull? then Some(None) else if j.JNum? && -3276.0 <= j.n <= 3276.0 then Some(Some(j.n)) else None
  }

  function ParseRow(j: Json, expected: nat, last: nat, now: nat): Option<HistorySample>
  {
    if !(j.JArr? && |j.items| == 7) then None
    else
      var number, seconds := Unsigned(j.items[0]), Unsigned(j.items[1]);
      var flags, fault := Unsigned(j.items[5]), Unsigned(j.items[6]);
      var chamber, ptc, target := Temperature(j.items[2]), Temperature(j.items[3]), Temperature(j.items[4]);
      if number == Some(expected) && expected <= last && seconds.Some? && seconds.value <= now &&
         flags.Some? && flags.value <= 7 && fault.Some? && fault.value <= 255 &&
         chamber.Some? && ptc.Some? && target.Some?
      then
        Some(HistorySample(expected, seconds.value, chamber.value, ptc.value, target.value, flags.value, fault.value))
      else None
  }

  function ParseRows(rows: seq<Json>, expected: nat, last: nat, now: nat): Option<seq<HistorySample>>
  {
    if rows == [] then Some([])
    else
      var head := ParseRow(rows[0], expected, last, now);
      var tail := ParseRows(rows[1..], expected + 1, last, now);
      if head.Some? && tail.Some? then Some([head.value] + tail.value) else None
  }

  predicate Increasing(samples: seq<HistorySample>)
  {
    forall i :: 0 < i < |samples| ==> samples[i].seconds > samples[i - 1].seconds
  }

  function Field(root: Json, key: string): Json
  {
    if root.JObj? && key in root.fields then root.fields[key] else JNull
  }

  /** The checks on the page's own numbers, before its rows are looked at. */
  predicate Framed(first: nat, last: nat) { first >= 1 && first <= last + 1 && (last == 0 || first <= last) }

  datatype Header = Header(device: string, boot: string, now: nat, first: nat, next: nat, last: nat)

  function ParseHeader(root: Json, expectedDevice: string): Option<Header>
  {
    var device, boot := Field(root, "device_id"), Field(root, "boot");
    var now, first := Unsigned(Field(root, "now_s")), Unsigned(Field(root, "first"));
    var last, next := Unsigned(Field(root, "last")), Unsigned(Field(root, "next"));
    if !(device.JStr? && DeviceId(Upper(device.s)) && Upper(device.s) == Upper(expectedDevice)) then None
    else if !(boot.JStr? && BootId(boot.s) && now.Some? && first.Some? && last.Some? && next.Some?) then None
    else if !Framed(first.value, last.value) then None
    else Some(Header(Upper(device.s), boot.s, now.value, first.value, next.value, last.value))
  }

  function EffectiveAfter(after: nat, last: nat): nat { if after > last then 0 else after }

  function ExpectedFirst(after: nat, first: nat, last: nat): nat { Max(EffectiveAfter(after, last) + 1, first) }

  function ParseBody(h: Header, rows: Json, gap: Json, after: nat): Option<HistoryPage>
  {
    if !(rows.JArr? && |rows.items| <= PAGE_ROWS) then None
    else
      var effective := EffectiveAfter(after, h.last);
      var expectedFirst := ExpectedFirst(after, h.first, h.last);
      var samples := ParseRows(rows.items, expectedFirst, h.last, h.now);
      if samples.None? || !Increasing(samples.value) then None
      else
        var s := samples.value;
        if |s| == Min(PAGE_ROWS, Max(h.last - expectedFirst + 1, 0)) &&
           h.next == (if s == [] then effective else s[|s| - 1].sequence) &&
           gap == JBool(effective < h.first - 1)
        then Some(HistoryPage(h.device, h.boot, h.now, h.first, h.next, h.last, gap.b, s))
        else None
  }

  function ParseHistoryPage(root: Json, expectedDevice: string, after: nat): Option<HistoryPage>
  {
    var h := ParseHeader(root, expectedDevice);
    if after > UINT_MAX || h.None? then None
    else ParseBody(h.value, Field(root, "samples"), Field(root, "gap"), after)
  }

  // ---------------------------------------------------------------- what a parsed page is

  /** The shape every accepted page has, whoever sent it. */
  predicate Consistent(p: HistoryPage, after: nat)
  {
    var effective := EffectiveAfter(after, p.last);
    var expectedFirst := ExpectedFirst(after, p.first, p.last);
    && Framed(p.first, p.last) && |p.boot| == 16
    && |p.samples| == Min(PAGE_ROWS, Max(p.last - expectedFirst + 1, 0))
    && (forall i :: 0 <= i < |p.samples| ==> p.samples[i].sequence == expectedFirst + i)
    && p.next == (if p.samples == [] then effective else expectedFirst + |p.samples| - 1)
    && p.gap == (effective < p.first - 1)
  }

  lemma {:induction false} ParsedRows(rows: seq<Json>, expected: nat, last: nat, now: nat)
    requires ParseRows(rows, expected, last, now).Some?
    ensures var s := ParseRows(rows, expected, last, now).value;
            && |s| == |rows|
            && forall i :: 0 <= i < |s| ==> s[i].sequence == expected + i && s[i].seconds <= now
  {
    if rows != [] {
      ParsedRows(rows[1..], expected + 1, last, now);
    }
  }

  /** Fail closed: whatever the input, an accepted page has consecutive rows, an exact length, cursor and gap flag. */
  lemma ParsedPageIsConsistent(root: Json, expectedDevice: string, after: nat)
    requires ParseHistoryPage(root, expectedDevice, after).Some?
    ensures Consistent(ParseHistoryPage(root, expectedDevice, after).value, after)
  {
    hide ParseRows;
    var h := ParseHeader(root, expectedDevice).value;
    ParsedRows(Field(root, "samples").items, ExpectedFirst(after, h.first, h.last), h.last, h.now);
  }

  lemma ParsedRowHolds(row: Json, expected: nat, last: nat, now: nat)
    requires ParseRow(row, expected, last, now).Some?
    ensures Holds(row, ParseRow(row, expected, last, now).value)
  {
  }

  /** Every row of an accepted page was within its bounds, and later than the one before it. */
  lemma {:induction false} ParsedRowsAreBounded(rows: seq<Json>, expected: nat, last: nat, now: nat, i: nat)
    requires ParseRows(rows, expected, last, now).Some? && i < |rows|
    ensures var s := ParseRows(rows, expected, last, now).value;
            && |s| == |rows| && s[i].sequence <= last && s[i].seconds <= now && s[i].flags <= 7 && s[i].fault <= 255
            && Holds(rows[i], s[i])
            && InDegrees(s[i].chamber) && InDegrees(s[i].ptc) && InDegrees(s[i].target)
    decreases |rows|
  {
    ParsedRows(rows, expected, last, now);
    if i > 0 {
      ParsedRowsAreBounded(rows[1..], expected + 1, last, now, i - 1);
    } else {
      ParsedRowHolds(rows[0], expected, last, now);
    }
  }

  /** The row holds these very numbers; a missing temperature is a null. */
  predicate Holds(row: Json, s: HistorySample)
  {
    && row.JArr? && |row.items| == 7
    && row.items[0] == JNum(s.sequence as real) && row.items[1] == JNum(s.seconds as real)
    && row.items[2] == HeldAs(s.chamber) && row.items[3] == HeldAs(s.ptc) && row.items[4] == HeldAs(s.target)
    && row.items[5] == JNum(s.flags as real) && row.items[6] == JNum(s.fault as real)
  }

  function HeldAs(t: Option<real>): Json { if t.Some? then JNum(t.value) else JNull }

  predicate InDegrees(t: Option<real>) { t.Some? ==> -3276.0 <= t.value <= 3276.0 }

  /**
   * Fail closed, row by row: an accepted page is of the expected device, its ids are well formed, its numbers are those
   * of the message, and each of its rows lies in the past of the page, later than the row before it, with its flags,
   * fault and temperatures in range.
   */
  lemma ParsedPageIsChecked(root: Json, expectedDevice: string, after: nat, i: nat)
    requires ParseHistoryPage(root, expectedDevice, after).Some?
    ensures var p := ParseHistoryPage(root, expectedDevice, after).value;
            && p.device == Upper(expectedDevice) && |p.device| == 12 && |p.boot| == 16 && |p.samples| <= 32
            && (forall c :: c in p.device ==> '0' <= c <= '9' || 'A' <= c <= 'F')
            && (forall c :: c in p.boot ==> '0' <= c <= '9' || 'A' <= c <= 'F' || 'a' <= c <= 'f')
            && after <= 0xFFFF_FFFF
            && Field(root, "now_s") == JNum(p.nowSeconds as real) && Field(root, "first") == JNum(p.first as real)
            && Field(root, "next") == JNum(p.next as real) && Field(root, "last") == JNum(p.last as real)
            && Field(root, "gap") == JBool(p.gap)
            && Field(root, "samples").JArr? && |Field(root, "samples").items| == |p.samples|
            && (i < |p.samples| ==>
                  var s := p.samples[i];
                  && s.sequence <= p.last && s.seconds <= p.nowSeconds && s.flags <= 7 && s.fault <= 255
                  && Holds(Field(root, "samples").items[i], s)
                  && InDegrees(s.chamber) && InDegrees(s.ptc) && InDegrees(s.target)
                  && (i > 0 ==> s.seconds > p.samples[i - 1].seconds))
  {
    hide ParseRows, Upper;
    var h := ParseHeader(root, expectedDevice).value;
    ParsedRows(Field(root, "samples").items, ExpectedFirst(after, h.first, h.last), h.last, h.now);
    if i < |ParseHistoryPage(root, expectedDevice, after).value.samples| {
      ParsedRowsAreBounded(Field(root, "samples").items, ExpectedFirst(after, h.first, h.last), h.last, h.now, i);
    }
  }

  // ---------------------------------------------------------------- the two sides agree

  function ViewSample(r: R.Record): HistorySample
  {
    HistorySample(r.number, r.seconds, Degrees(r.chamber), Degrees(r.ptc), Degrees(r.target), r.flags, r.fault)
  }

  function ViewSamples(rows: seq<R.Record>): (s: seq<HistorySample>)
    ensures |s| == |rows| && forall i :: 0 <= i < |s| ==> s[i] == ViewSample(rows[i])
  {
    seq(|rows|, i requires 0 <= i < |rows| => ViewSample(rows[i]))
  }

  function ViewPage(p: R.Page): HistoryPage
  {
    HistoryPage(p.device, p.boot, p.nowS, p.first, p.next, p.last, p.gap, ViewSamples(p.samples))
  }

  lemma NumberReadsBack(n: nat)
    requires n <= UINT_MAX
    ensures Unsigned(Number(n)) == Some(n)
  {
  }

  lemma TemperatureReadsBack(t: Option<int>)
    requires R.InTenths(t)
    ensures Temperature(EncodeTemperature(t)) == Some(Degrees(t))
  {
  }

  lemma RowReadsBack(r: R.Record, last: nat, now: nat)
    requires R.Recordable(r) && r.number <= last <= UINT_MAX && r.seconds <= now
    ensures ParseRow(EncodeRow(r), r.number, last, now) == Some(ViewSample(r))
  {
    hide Unsigned, Temperature, Degrees, EncodeTemperature, Number;
    NumberReadsBack(r.number);
    NumberReadsBack(r.seconds);
    NumberReadsBack(r.flags);
    NumberReadsBack(r.fault);
    TemperatureReadsBack(r.chamber);
    TemperatureReadsBack(r.ptc);
    TemperatureReadsBack(r.target);
  }

  lemma {:induction false} RowsReadBack(rows: seq<R.Record>, expected: nat, last: nat, now: nat)
    requires last <= UINT_MAX
    requires forall i :: 0 <= i < |rows| ==>
                R.Recordable(rows[i]) && rows[i].number == expected + i <= last && rows[i].seconds <= now
    ensures ParseRows(EncodeRows(rows), expected, last, now) == Some(ViewSamples(rows))
  {
    hide ParseRow, EncodeRow;
    if rows != [] {
      RowReadsBack(rows[0], last, now);
      RowsReadBack(rows[1..], expected + 1, last, now);
      assert EncodeRows(rows)[1..] == EncodeRows(rows[1..]);
      assert ViewSamples(rows) == [ViewSample(rows[0])] + ViewSamples(rows[1..]);
    }
  }

  lemma {:induction false} TimesGrow(log: seq<R.Record>, i: nat, j: nat)
    requires R.Chronicle(log) && i <= j < |log|
    ensures log[i].seconds <= log[j].seconds
    decreases j
  {
    if i < j {
      TimesGrow(log, i, j - 1);
    }
  }

  lemma UpperOfDevice(s: string)
    requires DeviceId(s)
    ensures Upper(s) == s
  {
  }

  lemma FieldsReadBack(p: R.Page)
    ensures var root := Encode(p);
            && Field(root, "device_id") == JStr(p.device) && Field(root, "boot") == JStr(p.boot)
            && Field(root, "now_s") == Number(p.nowS) && Field(root, "first") == Number(p.first)
            && Field(root, "last") == Number(p.last) && Field(root, "next") == Number(p.next)
            && Field(root, "gap") == JBool(p.gap) && Field(root, "samples") == JArr(EncodeRows(p.samples))
  {
  }

  /** The recorder's own arithmetic meets what the parser expects of it. */
  lemma PageArithmetic(device: string, boot: string, log: seq<R.Record>, after: nat, nowS: nat)
    requires |log| < UINT_MAX
    ensures var p := R.PageOf(device, boot, log, after, nowS);
            var effective := EffectiveAfter(after, p.last);
            var expectedFirst := ExpectedFirst(after, p.first, p.last);
            && p.last == |log| && p.first <= UINT_MAX && p.next <= UINT_MAX && Framed(p.first, p.last)
            && |p.samples| == Min(PAGE_ROWS, Max(p.last - expectedFirst + 1, 0))
            && p.next == (if p.samples == [] then effective else expectedFirst + |p.samples| - 1)
            && p.gap == (effective < p.first - 1)
  {
  }

  /** A page holds the 32 oldest of the last 720 records that are newer than the cursor, and tells if some are lost. */
  lemma PageHolds(device: string, boot: string, log: seq<R.Record>, after: nat, nowS: nat)
    ensures var p := R.PageOf(device, boot, log, after, nowS);
            var known := if after > |log| then 0 else after;
            var lost := if |log| > 720 then |log| - 720 else 0;
            var from := if known > lost then known else lost;
            && p.last == |log| && p.first == lost + 1 && (p.gap <==> known < lost)
            && p.samples == (if from + 32 <= |log| then log[from..from + 32] else log[from..])
            && p.next == (if p.samples == [] then known else from + |p.samples|)
  {
  }

  lemma PageRows(device: string, boot: string, log: seq<R.Record>, after: nat, nowS: nat, i: nat)
    requires R.Chronicle(log) && (log != [] ==> log[|log| - 1].seconds <= nowS)
    requires i < |R.PageOf(device, boot, log, after, nowS).samples|
    ensures var p := R.PageOf(device, boot, log, after, nowS);
            var effective := EffectiveAfter(after, p.last);
            var expectedFirst := ExpectedFirst(after, p.first, p.last);
            && expectedFirst + i <= p.last && p.samples[i] == log[expectedFirst - 1 + i]
            && R.Recordable(p.samples[i]) && p.samples[i].number == expectedFirst + i && p.samples[i].seconds <= nowS
  {
    hide R.Recordable;
    var p := R.PageOf(device, boot, log, after, nowS);
    var start := Max(R.EffectiveAfter(after, p.last), p.first - 1);
    assert p.samples[i] == log[start + i];
    TimesGrow(log, start + i, |log| - 1);
  }

  lemma SampleTimesGrow(log: seq<R.Record>, rows: seq<R.Record>, from: nat)
    requires R.Chronicle(log) && from + |rows| <= |log|
    requires forall i :: 0 <= i < |rows| ==> rows[i] == log[from + i]
    ensures Increasing(ViewSamples(rows))
  {
    forall i | 0 < i < |rows|
      ensures rows[i].seconds > rows[i - 1].seconds
    {
      assert rows[i] == log[from + i] && rows[i - 1] == log[from + i - 1];
    }
  }

  lemma HeaderReadsBack(p: R.Page, expected: string)
    requires DeviceId(p.device) && BootId(p.boot) && Upper(expected) == p.device && Framed(p.first, p.last)
    requires p.nowS <= UINT_MAX && p.first <= UINT_MAX && p.next <= UINT_MAX && p.last <= UINT_MAX
    ensures ParseHeader(Encode(p), expected) == Some(Header(p.device, p.boot, p.nowS, p.first, p.next, p.last))
  {
    hide Encode, Unsigned, Field, Number;
    FieldsReadBack(p);
    NumberReadsBack(p.nowS);
    NumberReadsBack(p.first);
    NumberReadsBack(p.last);
    NumberReadsBack(p.next);
    UpperOfDevice(p.device);
  }

  lemma BodyReadsBack(device: string, boot: string, log: seq<R.Record>, after: nat, nowS: nat)
    requires R.Chronicle(log) && nowS <= UINT_MAX && (log != [] ==> log[|log| - 1].seconds <= nowS)
    ensures var p := R.PageOf(device, boot, log, after, nowS);
            ParseBody(Header(device, boot, nowS, p.first, p.next, p.last), JArr(EncodeRows(p.samples)), JBool(p.gap),
                      after) == Some(ViewPage(p))
  {
    hide ParseRows, EncodeRows, R.PageOf, Increasing, R.Recordable, ViewSample;
    var p := R.PageOf(device, boot, log, after, nowS);
    PageArithmetic(device, boot, log, after, nowS);
    PageNames(device, boot, log, after, nowS);
    var expectedFirst := ExpectedFirst(after, p.first, p.last);
    forall i | 0 <= i < |p.samples|
      ensures R.Recordable(p.samples[i]) && p.samples[i].number == expectedFirst + i <= p.last
      ensures p.samples[i].seconds <= nowS && p.samples[i] == log[expectedFirst - 1 + i]
    {
      PageRows(device, boot, log, after, nowS, i);
    }
    RowsReadBack(p.samples, expectedFirst, p.last, nowS);
    SampleTimesGrow(log, p.samples, expectedFirst - 1);
    if p.samples != [] {
      LastRow(p.samples);
    }
  }

  lemma LastRow(rows: seq<R.Record>)
    requires rows != []
    ensures ViewSamples(rows)[|rows| - 1].sequence == rows[|rows| - 1].number
  {
  }

  /**
   * Every page the recorder can produce, for any cursor and any history before the counters wrap, passes every check
   * of the phone's parser and reads back as exactly the recorded samples.
   */
  lemma HonestPageParses(device: string, boot: string, log: seq<R.Record>, after: nat, nowS: nat, expected: string)
    requires R.Chronicle(log) && DeviceId(device) && BootId(boot) && Upper(expected) == device
    requires after <= UINT_MAX && nowS <= UINT_MAX && (log != [] ==> log[|log| - 1].seconds <= nowS)
    ensures var p := R.PageOf(device, boot, log, after, nowS);
            ParseHistoryPage(Encode(p), expected, after) == Some(ViewPage(p))
  {
    hide ParseHeader, ParseBody, R.PageOf, Encode, Field;
    var p := R.PageOf(device, boot, log, after, nowS);
    PageArithmetic(device, boot, log, after, nowS);
    PageNames(device, boot, log, after, nowS);
    HeaderReadsBack(p, expected);
    FieldsReadBack(p);
    BodyReadsBack(device, boot, log, after, nowS);
  }

  lemma PageNames(device: string, boot: string, log: seq<R.Record>, after: nat, nowS: nat)
    ensures var p := R.PageOf(device, boot, log, after, nowS); p.device == device && p.boot == boot && p.nowS == nowS
  {
  }

  /** Asking again from the page's own cursor strictly approaches the newest record, and stops only there. */
  lemma PagingAdvances(device: string, boot: string, log: seq<R.Record>, after: nat, nowS: nat)
    requires after < |log|
    ensures var p := R.PageOf(device, boot, log, after, nowS);
            after < p.next <= |log| && p.samples != []
    ensures R.PageOf(device, boot, log, |log|, nowS).next == |log|
  {
  }

  /** The cursor after fetching n pages in a row with no new record in between. */
  function CursorAfter(device: string, boot: string, log: seq<R.Record>, after: nat, nowS: nat, n: nat): nat
    decreases n
  {
    if n == 0 then after
    else CursorAfter(device, boot, log, R.PageOf(device, boot, log, after, nowS).next, nowS, n - 1)
  }

  /** Every 32 retained records take one page, and then the client is up to date. */
  lemma {:induction false} PagingReachesLast(device: string, boot: string, log: seq<R.Record>, after: nat, nowS: nat,
                                             n: nat)
    requires after <= |log| && |log| - Max(after, R.FirstKept(|log|) - 1) <= R.PAGE * n
    requires n == 0 ==> after == |log|
    ensures CursorAfter(device, boot, log, after, nowS, n) == |log|
    decreases n
  {
    if n > 0 {
      if after < |log| {
        PagingAdvances(device, boot, log, after, nowS);
      }
      PagingReachesLast(device, boot, log, R.PageOf(device, boot, log, after, nowS).next, nowS, n - 1);
    }
  }

  /** What a fetch produces: the page to ingest, or a failure that leaves everything as it was. */
  method FetchHistoryBatch(device: string, expected: HistoryCursor, first: Json, second: Json)
    returns (page: Option<HistoryPage>, after: nat)
    ensures page == FetchResult(device, expected, first, second)
    ensures page.Some? ==> Consistent(page.value, after)
    ensures page.Some? && page.value.boot == expected.boot && expected.sequence <= page.value.last ==>
              page.value.next >= after
  {
    after := expected.sequence;
    var fetched := first;
    if !DeviceMatches(device, fetched) {
      return None, after;
    }
    if NeedsRefetch(expected, fetched) {
      after := 0;
      fetched := second;
    }
    page := ParseHistoryPage(fetched, device, after);
    if page.Some? {
      ParsedPageIsConsistent(fetched, device, after);
    }
  }

  /** optString: a missing or non-string field reads as the empty string. */
  function Text(j: Json): string { if j.JStr? then j.s else "" }

  predicate DeviceMatches(device: string, page: Json) { Upper(Text(Field(page, "device_id"))) == Upper(device) }

  /** The device has rebooted since the cursor was taken, so the old sequence means nothing. */
  predicate NeedsRefetch(expected: HistoryCursor, page: Json)
  {
    Text(Field(page, "boot")) != expected.boot && expected.sequence > 0
  }

  function FetchResult(device: string, expected: HistoryCursor, first: Json, second: Json): Option<HistoryPage>
  {
    if !DeviceMatches(device, first) then None
    else if NeedsRefetch(expected, first) then ParseHistoryPage(second, device, 0)
    else ParseHistoryPage(first, device, expected.sequence)
  }
}
