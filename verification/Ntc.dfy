/** main/ntc.c: resistance to temperature by the 114-entry table, and the five-sample moving mean. */
module Ntc {
  import opened Common

  const TEMP_BASE_C := 12
  const AVG_WINDOW := 5

  // The table in tenths of a kOhm, ten entries a row; entry i belongs to 12 + i degrees.
  const ROW0: seq<int> := [1987, 1894, 1807, 1724, 1645, 1570, 1499, 1432, 1368, 1307]
  const ROW1: seq<int> := [1249, 1194, 1142, 1092, 1045, 1000, 957, 916, 878, 841]
  const ROW2: seq<int> := [806, 772, 740, 709, 680, 653, 626, 601, 577, 554]
  const ROW3: seq<int> := [532, 511, 491, 472, 453, 436, 419, 403, 388, 373]
  const ROW4: seq<int> := [359, 345, 332, 320, 308, 297, 286, 276, 266, 256]
  const ROW5: seq<int> := [247, 238, 230, 222, 214, 206, 199, 192, 186, 179]
  const ROW6: seq<int> := [173, 167, 162, 156, 151, 146, 141, 136, 132, 128]
  const ROW7: seq<int> := [124, 120, 116, 112, 109, 105, 102, 99, 96, 93]
  const ROW8: seq<int> := [90, 87, 84, 82, 79, 77, 74, 72, 70, 68]
  const ROW9: seq<int> := [66, 64, 62, 60, 59, 57, 55, 54, 52, 51]
  const ROW10: seq<int> := [49, 48, 47, 45, 44, 43, 42, 41, 39, 38]
  const ROW11: seq<int> := [37, 36, 35, 34]

  const LOW_ROWS := ROW0 + ROW1 + ROW2 + ROW3 + ROW4 + ROW5
  const HIGH_ROWS := ROW6 + ROW7 + ROW8 + ROW9 + ROW10 + ROW11
  const TABLE := LOW_ROWS + HIGH_ROWS

  predicate Falls(s: seq<int>) { forall i :: 0 < i < |s| ==> s[i - 1] > s[i] }

  lemma Join(a: seq<int>, b: seq<int>)
    requires a != [] && b != [] && Falls(a) && Falls(b) && a[|a| - 1] > b[0]
    ensures Falls(a + b) && |a + b| == |a| + |b| && (a + b)[|a + b| - 1] == b[|b| - 1] && (a + b)[0] == a[0]
  {
  }

  lemma LowRowsFall()
    ensures Falls(LOW_ROWS) && |LOW_ROWS| == 60 && LOW_ROWS[0] == 1987 && LOW_ROWS[59] == 179
  {
    Join(ROW0, ROW1);
    Join(ROW0 + ROW1, ROW2);
    Join(ROW0 + ROW1 + ROW2, ROW3);
    Join(ROW0 + ROW1 + ROW2 + ROW3, ROW4);
    Join(ROW0 + ROW1 + ROW2 + ROW3 + ROW4, ROW5);
  }

  lemma HighRowsFall()
    ensures Falls(HIGH_ROWS) && |HIGH_ROWS| == 54 && HIGH_ROWS[0] == 173 && HIGH_ROWS[53] == 34
  {
    Join(ROW6, ROW7);
    Join(ROW6 + ROW7, ROW8);
    Join(ROW6 + ROW7 + ROW8, ROW9);
    Join(ROW6 + ROW7 + ROW8 + ROW9, ROW10);
    Join(ROW6 + ROW7 + ROW8 + ROW9 + ROW10, ROW11);
  }

  lemma TableFalls()
    ensures |TABLE| == 114 && Falls(TABLE)
  {
    LowRowsFall();
    HighRowsFall();
    Join(LOW_ROWS, HIGH_ROWS);
  }

  // ---------------------------------------------------------------- the conversion

  /** Resistances in tenths of a kOhm, as reals. */
  predicate Brackets(table: seq<int>, i: nat, x: real)
  {
    i + 1 < |table| && x <= table[i] as real && x >= table[i + 1] as real
  }

  /** The interpolated temperature inside interval i. */
  function Interpolated(table: seq<int>, i: nat, x: real): real
    requires i + 1 < |table| && table[i] > table[i + 1]
  {
    (TEMP_BASE_C + i) as real + (table[i] as real - x) / (table[i] - table[i + 1]) as real
  }

  /** resistance_to_temp_c: clamped outside the table, interpolated in the first interval that brackets x. */
  method ResistanceToTemp(table: seq<int>, x: real) returns (t: Temp)
    requires |table| >= 2 && Falls(table)
    ensures t == Deg(Converted(table, x))
  {
    if x >= table[0] as real {
      return Deg(TEMP_BASE_C as real);
    }
    if x <= table[|table| - 1] as real {
      return Deg((TEMP_BASE_C + |table| - 1) as real);
    }
    for i := 0 to |table| - 1
      invariant x < table[i] as real
    {
      if x <= table[i] as real && x >= table[i + 1] as real {
        BracketIsUnique(table, i, x);
        return Deg(Interpolated(table, i, x));
      }
    }
    assert false;
  }

  lemma {:induction false} FallsFar(table: seq<int>, i: nat, j: nat)
    requires Falls(table) && i < j < |table|
    ensures table[i] > table[j]
    decreases j
  {
    if i < j - 1 {
      FallsFar(table, i, j - 1);
    }
  }

  /** Where interval i starts to bracket x from above: the least i with x >= table[i + 1]. */
  function Interval(table: seq<int>, x: real, from: nat): (i: nat)
    requires from + 1 < |table| && x >= table[|table| - 1] as real
    ensures from <= i && i + 1 < |table| && x >= table[i + 1] as real
    ensures forall k :: from < k <= i ==> x < table[k] as real
    decreases |table| - from
  {
    if x >= table[from + 1] as real then from else Interval(table, x, from + 1)
  }

  function Converted(table: seq<int>, x: real): (c: real)
    requires |table| >= 2 && Falls(table)
    ensures TEMP_BASE_C as real <= c <= (TEMP_BASE_C + |table| - 1) as real
  {
    if x >= table[0] as real then TEMP_BASE_C as real
    else if x <= table[|table| - 1] as real then (TEMP_BASE_C + |table| - 1) as real
    else
      var i := Interval(table, x, 0);
      InsideInterval(table, i, x);
      Interpolated(table, i, x)
  }

  lemma FractionBounds(a: real, b: real, x: real)
    requires b <= x <= a && b < a
    ensures 0.0 <= (a - x) / (a - b) <= 1.0
  {
    var n, d := a - x, a - b;
    assert 0.0 <= n / d;
    assert d / d == 1.0;
    FractionFalls(a, b, b, x);
  }

  lemma InsideInterval(table: seq<int>, i: nat, x: real)
    requires Falls(table) && Brackets(table, i, x)
    ensures (TEMP_BASE_C + i) as real <= Interpolated(table, i, x) <= (TEMP_BASE_C + i + 1) as real
  {
    FractionBounds(table[i] as real, table[i + 1] as real, x);
  }

  /** The first bracketing interval is the one the specification names. */
  lemma BracketIsUnique(table: seq<int>, i: nat, x: real)
    requires Falls(table) && |table| >= 2 && table[|table| - 1] as real < x < table[0] as real
    requires i + 1 < |table| && table[i + 1] as real <= x < table[i] as real
    ensures Interval(table, x, 0) == i
  {
    var j := Interval(table, x, 0);
    if j < i {
      if j + 1 < i {
        FallsFar(table, j + 1, i);
      }
    }
  }

  lemma FractionFalls(a: real, b: real, x: real, y: real)
    requires b < a && x <= y
    ensures (a - x) / (a - b) >= (a - y) / (a - b)
  {
  }

  /** The interval of a larger resistance never comes later. */
  lemma IntervalsFall(table: seq<int>, x: real, y: real)
    requires Falls(table) && |table| >= 2 && table[|table| - 1] as real < x <= y < table[0] as real
    ensures Interval(table, y, 0) <= Interval(table, x, 0)
  {
  }

  lemma ConversionFalls(table: seq<int>, x: real, y: real)
    requires Falls(table) && |table| >= 2 && x <= y
    ensures Converted(table, x) >= Converted(table, y)
  {
    if table[|table| - 1] as real < x && y < table[0] as real {
      var i, j := Interval(table, x, 0), Interval(table, y, 0);
      IntervalsFall(table, x, y);
      InsideInterval(table, i, x);
      InsideInterval(table, j, y);
      if i == j {
        FractionFalls(table[i] as real, table[i + 1] as real, x, y);
      }
    }
  }

  lemma WholeFraction(d: real)
    requires d != 0.0
    ensures d / d == 1.0
  {
  }

  lemma EntriesConvertExactly(table: seq<int>, i: nat)
    requires Falls(table) && |table| >= 2 && i < |table|
    ensures Converted(table, table[i] as real) == (TEMP_BASE_C + i) as real
  {
    var last := |table| - 1;
    if 0 < i < last {
      FallsFar(table, 0, i);
      FallsFar(table, i, last);
      BracketIsUnique(table, i - 1, table[i] as real);
      WholeFraction((table[i - 1] - table[i]) as real);
    } else if i == last {
      FallsFar(table, 0, last);
    }
  }

  /**
   * Over the stock table the conversion is total, stays within 12..125 C, gives every entry its exact temperature, and
   * never reads hotter for a larger resistance.
   */
  lemma StockTableConverts(x: real, y: real, i: nat)
    requires x <= y && i < 114
    ensures |TABLE| == 114 && Falls(TABLE)
    ensures 12.0 <= Converted(TABLE, y) <= Converted(TABLE, x) <= 125.0
    ensures Converted(TABLE, TABLE[i] as real) == (12 + i) as real
  {
    hide Falls, Converted;
    TableFalls();
    ConversionFalls(TABLE, x, y);
    EntriesConvertExactly(TABLE, i);
  }

  // ---------------------------------------------------------------- the moving mean

  function Sum(s: seq<real>): real { if s == [] then 0.0 else Sum(s[..|s| - 1]) + s[|s| - 1] }

  lemma {:induction false} SumConcat(a: seq<real>, b: seq<real>)
    ensures Sum(a + b) == Sum(a) + Sum(b)
    decreases |b|
  {
    if b == [] {
      assert a + b == a;
    } else {
      assert (a + b)[..|a + b| - 1] == a + b[..|b| - 1];
      SumConcat(a, b[..|b| - 1]);
    }
  }

  /** The last five of all readings so far, or all of them. */
  function Recent(history: seq<real>): seq<real> { history[Max(|history| - AVG_WINDOW, 0)..] }

  class Smoother {
    const window: array<real>
    var index: nat
    var count: nat
    ghost var history: seq<real>

    ghost predicate Valid()
      reads this, window
    {
      && window.Length == AVG_WINDOW && count == Min(|history|, AVG_WINDOW) && index == |history| % AVG_WINDOW
      && (if |history| < AVG_WINDOW then window[..count] == history
          else window[index..] + window[..index] == Recent(history))
    }

    constructor ()
      ensures Valid() && history == [] && fresh(window)
    {
      window := new real[AVG_WINDOW](_ => 0.0);
      index, count, history := 0, 0, [];
    }

    /** push_smoothed: the mean of the last five readings, or of all of them while there are fewer. */
    method PushSmoothed(t: real) returns (mean: real)
      requires Valid()
      modifies this, window
      ensures Valid() && history == old(history) + [t]
      ensures mean == Sum(Recent(history)) / |Recent(history)| as real
    {
      hide Sum, Recent;
      Store(t);
      var total := AddUp();
      MeanOfRing(window[..], index, history);
      mean := total / count as real;
    }

    method Store(t: real)
      requires Valid()
      modifies this, window
      ensures Valid() && history == old(history) + [t]
    {
      hide Sum, Recent;
      ghost var before, at := window[..], index;
      window[index] := t;
      index := (index + 1) % AVG_WINDOW;
      if count < AVG_WINDOW {
        count := count + 1;
      }
      history := history + [t];
      RingMoves(before, at, old(history), t);
      assert window[..] == before[at := t];
    }

    method AddUp() returns (total: real)
      requires window.Length == AVG_WINDOW && count <= AVG_WINDOW
      ensures total == Sum(window[..count])
    {
      total := 0.0;
      for i := 0 to count
        invariant total == Sum(window[..i])
      {
        assert window[..i + 1][..i] == window[..i];
        total := total + window[i];
      }
    }
  }

  /** The slots in storage order add up to the recent readings. */
  lemma MeanOfRing(slots: seq<real>, index: nat, history: seq<real>)
    requires |slots| == AVG_WINDOW && index <= AVG_WINDOW
    requires if |history| < AVG_WINDOW then slots[..|history|] == history
             else slots[index..] + slots[..index] == Recent(history)
    ensures Sum(slots[..Min(|history|, AVG_WINDOW)]) == Sum(Recent(history))
    ensures |Recent(history)| == Min(|history|, AVG_WINDOW)
  {
    if |history| >= AVG_WINDOW {
      assert slots[..AVG_WINDOW] == slots[..index] + slots[index..];
      SumConcat(slots[..index], slots[index..]);
      SumConcat(slots[index..], slots[..index]);
    }
  }

  /** One slot of the ring replaced: its reading order moves on by one. */
  lemma RingMoves(before: seq<real>, at: nat, history: seq<real>, t: real)
    requires |before| == AVG_WINDOW && at == |history| % AVG_WINDOW
    requires if |history| < AVG_WINDOW then before[..|history|] == history
             else before[at..] + before[..at] == Recent(history)
    ensures var after, next, longer := before[at := t], (at + 1) % AVG_WINDOW, history + [t];
            && next == |longer| % AVG_WINDOW
            && if |longer| < AVG_WINDOW then after[..|longer|] == longer
               else after[next..] + after[..next] == Recent(longer)
  {
    hide Recent;
    if |history| < AVG_WINDOW {
      RingFills(before, history, t);
    } else {
      RecentMoves(history, t);
      RingTurns(before, at, t);
    }
  }

  lemma RingFills(before: seq<real>, history: seq<real>, t: real)
    requires |before| == AVG_WINDOW > |history| && before[..|history|] == history
    ensures var after, longer := before[|history| := t], history + [t];
            && after[..|longer|] == longer
            && (|longer| == AVG_WINDOW ==> Recent(longer) == longer == after[0..] + after[..0])
  {
    var after, longer := before[|history| := t], history + [t];
    if |longer| == AVG_WINDOW {
      assert after == longer && after[0..] + after[..0] == after;
    }
  }

  lemma RecentMoves(history: seq<real>, t: real)
    requires |history| >= AVG_WINDOW
    ensures |Recent(history)| == AVG_WINDOW && Recent(history + [t]) == Recent(history)[1..] + [t]
  {
  }

  lemma RingTurns(before: seq<real>, at: nat, t: real)
    requires |before| == AVG_WINDOW > at
    ensures var after, next := before[at := t], (at + 1) % AVG_WINDOW;
            after[next..] + after[..next] == (before[at..] + before[..at])[1..] + [t]
  {
  }
}
