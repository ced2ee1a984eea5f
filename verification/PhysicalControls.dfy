/** main/physical_controls.c: debounce, long press and the two-button recovery gesture. Times in milliseconds. */
module PhysicalControls {
  import opened Common

  const DEBOUNCE_MS := 20
  const LONG_PRESS_MS := 2000
  const COMBO_MS := 5000
  const BUTTONS := 4

  /** INT64_MAX: the gesture was attempted and is spent until it is released. */
  const NEVER := 0x7FFF_FFFF_FFFF_FFFF

  datatype Button = Button(enabled: bool, ignoring: bool, stable: bool, rawLast: bool, longFired: bool,
                           rawChangedMs: int, pressStartedMs: int)

  datatype Press = Short | Long

  /** g_buttons (power, auto, on, dry) and the gesture's two statics. */
  datatype Controls = Controls(buttons: seq<Button>, combo: bool, comboStartedMs: int)

  /** One poll: the levels read and the time. */
  datatype Poll = Poll(pressed: seq<bool>, nowMs: int)

  predicate WellFormed(p: Poll) { |p.pressed| == BUTTONS && 0 <= p.nowMs < NEVER }

  // ---------------------------------------------------------------- specification functions

  function Released(b: Button, nowMs: int): Button
  {
    b.(ignoring := false, rawLast := false, stable := false, rawChangedMs := nowMs)
  }

  /** A debounced level change: a press starts, or a release ends it and counts unless it already did. */
  function Changed(b: Button, raw: bool, nowMs: int): (Button, Option<Press>)
  {
    if raw == b.stable then (b, None)
    else if raw then (b.(stable := true, pressStartedMs := nowMs, longFired := false), None)
    else (b.(stable := false, pressStartedMs := 0, longFired := false), if b.longFired then None else Some(Short))
  }

  function AfterButton(b: Button, raw: bool, nowMs: int): (Button, Option<Press>)
  {
    if !b.enabled then (b, None)
    else if b.ignoring then (if raw then b else Released(b, nowMs), None)
    else
      var a := if raw != b.rawLast then b.(rawLast := raw, rawChangedMs := nowMs) else b;
      if nowMs - a.rawChangedMs < DEBOUNCE_MS then (a, None)
      else
        var (c, press) := Changed(a, raw, nowMs);
        if c.stable && !c.longFired && c.pressStartedMs > 0 && nowMs - c.pressStartedMs >= LONG_PRESS_MS
        then (c.(longFired := true), Some(Long)) else (c, press)
  }

  predicate ComboHeld(buttons: seq<Button>)
    requires |buttons| == BUTTONS
  {
    buttons[0].enabled && buttons[1].enabled && buttons[0].stable && buttons[1].stable
  }

  /** Forming the gesture consumes both presses; holding it for five seconds attempts one factory reset. */
  function AfterCombo(c: Controls, nowMs: int): (Controls, bool)
    requires |c.buttons| == BUTTONS
  {
    var held := ComboHeld(c.buttons);
    var a := if held && !c.combo then
               Controls(c.buttons[0 := c.buttons[0].(longFired := true)][1 := c.buttons[1].(longFired := true)], true,
                        nowMs)
             else if !held then c.(combo := false, comboStartedMs := 0)
             else c;
    if a.combo && nowMs - a.comboStartedMs >= COMBO_MS then (a.(comboStartedMs := NEVER), true) else (a, false)
  }

  function Polled(buttons: seq<Button>, p: Poll): (r: seq<Button>)
    requires |buttons| == BUTTONS && WellFormed(p)
    ensures |r| == BUTTONS
  {
    seq(BUTTONS, i requires 0 <= i < BUTTONS => AfterButton(buttons[i], p.pressed[i], p.nowMs).0)
  }

  function AfterPoll(c: Controls, p: Poll): (r: Controls)
    requires |c.buttons| == BUTTONS && WellFormed(p)
    ensures |r.buttons| == BUTTONS
  {
    AfterCombo(c.(buttons := Polled(c.buttons, p)), p.nowMs).0
  }

  function EventOf(c: Controls, p: Poll, i: nat): Option<Press>
    requires |c.buttons| == BUTTONS && WellFormed(p) && i < BUTTONS
  {
    AfterButton(c.buttons[i], p.pressed[i], p.nowMs).1
  }

  predicate Resets(c: Controls, p: Poll)
    requires |c.buttons| == BUTTONS && WellFormed(p)
  {
    AfterCombo(c.(buttons := Polled(c.buttons, p)), p.nowMs).1
  }

  // ---------------------------------------------------------------- the panel itself

  class Panel {
    const buttons: array<Button>
    var combo: bool
    var comboStartedMs: int

    ghost function View(): Controls
      reads this, buttons
    {
      Controls(buttons[..], combo, comboStartedMs)
    }

    /** A button held at start-up is ignored until it has been released once. */
    constructor (enabled: seq<bool>, pressed: seq<bool>, nowMs: int)
      requires |enabled| == |pressed| == BUTTONS
      ensures buttons.Length == BUTTONS && fresh(buttons) && !combo && comboStartedMs == 0
      ensures forall i :: 0 <= i < BUTTONS ==>
                buttons[i] == Button(enabled[i], pressed[i], pressed[i], pressed[i], false, nowMs, 0)
    {
      buttons := new Button[BUTTONS](i requires 0 <= i < BUTTONS =>
                                       Button(enabled[i], pressed[i], pressed[i], pressed[i], false, nowMs, 0));
      combo, comboStartedMs := false, 0;
    }

    /** The events of one poll, one entry per button, and whether a factory reset is attempted. */
    method PollButtons(p: Poll) returns (events: seq<Option<Press>>, reset: bool)
      requires buttons.Length == BUTTONS && WellFormed(p)
      modifies this, buttons
      ensures View() == AfterPoll(old(View()), p) && reset == Resets(old(View()), p)
      ensures |events| == BUTTONS && forall i :: 0 <= i < BUTTONS ==> events[i] == EventOf(old(View()), p, i)
    {
      events := [];
      for i := 0 to BUTTONS
        invariant |events| == i
        invariant forall j :: 0 <= j < i ==> events[j] == EventOf(old(View()), p, j)
        invariant forall j :: 0 <= j < i ==>
                    buttons[j] == AfterButton(old(buttons[j]), p.pressed[j], p.nowMs).0
        invariant forall j :: i <= j < BUTTONS ==> buttons[j] == old(buttons[j])
        modifies buttons
      {
        var event := PollButton(i, p.pressed[i], p.nowMs);
        events := events + [event];
      }
      assert buttons[..] == Polled(old(buttons[..]), p);
      reset := WatchCombo(p.nowMs);
    }

    method PollButton(i: nat, raw: bool, nowMs: int) returns (event: Option<Press>)
      requires i < buttons.Length
      modifies buttons
      ensures (buttons[i], event) == AfterButton(old(buttons[i]), raw, nowMs)
      ensures forall j :: 0 <= j < buttons.Length && j != i ==> buttons[j] == old(buttons[j])
    {
      event := None;
      if !buttons[i].enabled {
        return;
      }
      if buttons[i].ignoring {
        if !raw {
          buttons[i] := buttons[i].(ignoring := false, rawLast := false, stable := false, rawChangedMs := nowMs);
        }
        return;
      }
      if raw != buttons[i].rawLast {
        buttons[i] := buttons[i].(rawLast := raw, rawChangedMs := nowMs);
      }
      if nowMs - buttons[i].rawChangedMs < DEBOUNCE_MS {
        return;
      }
      if raw != buttons[i].stable {
        if raw {
          buttons[i] := buttons[i].(stable := true, pressStartedMs := nowMs, longFired := false);
        } else {
          if !buttons[i].longFired {
            event := Some(Short);
          }
          buttons[i] := buttons[i].(stable := false, pressStartedMs := 0, longFired := false);
        }
      }
      if buttons[i].stable && !buttons[i].longFired && buttons[i].pressStartedMs > 0 &&
         nowMs - buttons[i].pressStartedMs >= LONG_PRESS_MS {
        buttons[i] := buttons[i].(longFired := true);
        event := Some(Long);
      }
    }

    method WatchCombo(nowMs: int) returns (reset: bool)
      requires buttons.Length == BUTTONS
      modifies this, buttons
      ensures (View(), reset) == AfterCombo(old(View()), nowMs)
    {
      var held := buttons[0].enabled && buttons[1].enabled && buttons[0].stable && buttons[1].stable;
      if held && !combo {
        combo := true;
        comboStartedMs := nowMs;
        buttons[0] := buttons[0].(longFired := true);
        buttons[1] := buttons[1].(longFired := true);
      } else if !held {
        combo := false;
        comboStartedMs := 0;
      }
      reset := combo && nowMs - comboStartedMs >= COMBO_MS;
      if reset {
        comboStartedMs := NEVER;
      }
    }
  }

  // ---------------------------------------------------------------- runs

  predicate Run(c: Controls, ps: seq<Poll>)
  {
    |c.buttons| == BUTTONS && forall k :: 0 <= k < |ps| ==> WellFormed(ps[k])
  }

  function StateAt(c: Controls, ps: seq<Poll>, k: nat): (r: Controls)
    requires Run(c, ps) && k <= |ps|
    ensures |r.buttons| == BUTTONS
  {
    if k == 0 then c else AfterPoll(StateAt(c, ps, k - 1), ps[k - 1])
  }

  function EventAt(c: Controls, ps: seq<Poll>, k: nat, i: nat): Option<Press>
    requires Run(c, ps) && k < |ps| && i < BUTTONS
  {
    EventOf(StateAt(c, ps, k), ps[k], i)
  }

  /** Poll k debounces a new press of button i. */
  predicate PressStarts(c: Controls, ps: seq<Poll>, k: nat, i: nat)
    requires Run(c, ps) && k < |ps| && i < BUTTONS
  {
    !StateAt(c, ps, k).buttons[i].stable && StateAt(c, ps, k + 1).buttons[i].stable
  }

  /** No press, or one that has already counted. */
  predicate Spent(b: Button) { b.stable ==> b.longFired }

  lemma ButtonStaysSpent(b: Button, raw: bool, nowMs: int)
    requires Spent(b)
    ensures var (a, event) := AfterButton(b, raw, nowMs);
            !(a.stable && !b.stable) ==> Spent(a) && event.None?
  {
  }

  lemma EventSpends(b: Button, raw: bool, nowMs: int)
    requires AfterButton(b, raw, nowMs).1.Some?
    ensures Spent(AfterButton(b, raw, nowMs).0)
  {
  }

  /** The gesture changes no level, and can only spend a press. */
  lemma ComboKeeps(c: Controls, nowMs: int, i: nat)
    requires |c.buttons| == BUTTONS && i < BUTTONS
    ensures var d := AfterCombo(c, nowMs).0;
            && d.buttons[i].stable == c.buttons[i].stable && (Spent(c.buttons[i]) ==> Spent(d.buttons[i]))
  {
  }

  lemma PollStaysSpent(c: Controls, p: Poll, i: nat)
    requires |c.buttons| == BUTTONS && WellFormed(p) && i < BUTTONS && Spent(c.buttons[i])
    ensures var d := AfterPoll(c, p);
            !(d.buttons[i].stable && !c.buttons[i].stable) ==> Spent(d.buttons[i]) && EventOf(c, p, i).None?
  {
    hide AfterButton, AfterCombo;
    ButtonStaysSpent(c.buttons[i], p.pressed[i], p.nowMs);
    ComboKeeps(c.(buttons := Polled(c.buttons, p)), p.nowMs, i);
  }

  lemma EventSpendsPress(c: Controls, p: Poll, i: nat)
    requires |c.buttons| == BUTTONS && WellFormed(p) && i < BUTTONS && EventOf(c, p, i).Some?
    ensures Spent(AfterPoll(c, p).buttons[i])
  {
    hide AfterButton, AfterCombo;
    EventSpends(c.buttons[i], p.pressed[i], p.nowMs);
    ComboKeeps(c.(buttons := Polled(c.buttons, p)), p.nowMs, i);
  }

  lemma {:induction false} SpentUntilNewPress(c: Controls, ps: seq<Poll>, j: nat, k: nat, i: nat)
    requires Run(c, ps) && j <= k <= |ps| && i < BUTTONS && Spent(StateAt(c, ps, j).buttons[i])
    requires forall m :: j <= m < k ==> !PressStarts(c, ps, m, i)
    ensures Spent(StateAt(c, ps, k).buttons[i])
    ensures forall m :: j <= m < k ==> EventAt(c, ps, m, i).None?
    decreases k
  {
    hide AfterPoll, EventOf;
    if j < k {
      SpentUntilNewPress(c, ps, j, k - 1, i);
      assert !PressStarts(c, ps, k - 1, i);
      PollStaysSpent(StateAt(c, ps, k - 1), ps[k - 1], i);
    }
  }

  lemma NoEventOnStart(b: Button, raw: bool, nowMs: int)
    requires !b.stable && AfterButton(b, raw, nowMs).0.stable
    ensures AfterButton(b, raw, nowMs).1.None?
  {
  }

  /** At most one event per debounced press: between two events of a button a new press started. */
  lemma EventsNeedNewPress(c: Controls, ps: seq<Poll>, j: nat, k: nat, i: nat)
    requires Run(c, ps) && j < k < |ps| && i < BUTTONS
    requires EventAt(c, ps, j, i).Some? && EventAt(c, ps, k, i).Some?
    ensures exists m :: j < m < k && PressStarts(c, ps, m, i)
  {
    hide AfterPoll, EventOf;
    EventSpendsPress(StateAt(c, ps, j), ps[j], i);
    if forall m :: j < m < k ==> !PressStarts(c, ps, m, i) {
      SpentUntilNewPress(c, ps, j + 1, k, i);
      StartIsSilent(StateAt(c, ps, k), ps[k], i);
    }
  }

  /** From a spent state no event comes in the next poll, not even if that poll starts a press. */
  lemma StartIsSilent(c: Controls, p: Poll, i: nat)
    requires |c.buttons| == BUTTONS && WellFormed(p) && i < BUTTONS && Spent(c.buttons[i])
    ensures EventOf(c, p, i).None?
  {
    ButtonStaysSpent(c.buttons[i], p.pressed[i], p.nowMs);
    if !c.buttons[i].stable && AfterButton(c.buttons[i], p.pressed[i], p.nowMs).0.stable {
      NoEventOnStart(c.buttons[i], p.pressed[i], p.nowMs);
    }
  }

  /** Once the gesture forms, neither of its two presses can still emit anything, however it ends. */
  lemma ComboConsumesBoth(c: Controls, ps: seq<Poll>, j: nat, k: nat, i: nat)
    requires Run(c, ps) && j < k < |ps| && i < 2
    requires !StateAt(c, ps, j).combo && StateAt(c, ps, j + 1).combo
    requires forall m :: j < m < k ==> !PressStarts(c, ps, m, i)
    ensures EventAt(c, ps, k, i).None?
  {
    hide EventOf, Polled;
    assert Spent(StateAt(c, ps, j + 1).buttons[i]);
    SpentUntilNewPress(c, ps, j + 1, k, i);
    StartIsSilent(StateAt(c, ps, k), ps[k], i);
  }

  /** The gesture is on exactly while both of its buttons are held. */
  lemma GestureIsBoth(c: Controls, ps: seq<Poll>, k: nat)
    requires Run(c, ps) && 0 < k <= |ps|
    ensures var d := StateAt(c, ps, k);
            d.combo <==> d.buttons[0].enabled && d.buttons[0].stable && d.buttons[1].enabled && d.buttons[1].stable
  {
    hide Polled;
  }

  predicate ResetAt(c: Controls, ps: seq<Poll>, k: nat)
    requires Run(c, ps) && k < |ps|
  {
    Resets(StateAt(c, ps, k), ps[k])
  }

  lemma {:induction false} ResetIsSpent(c: Controls, ps: seq<Poll>, j: nat, k: nat)
    requires Run(c, ps) && j <= k <= |ps|
    requires StateAt(c, ps, j).combo && StateAt(c, ps, j).comboStartedMs == NEVER
    requires forall m :: j <= m <= k ==> StateAt(c, ps, m).combo
    ensures StateAt(c, ps, k).comboStartedMs == NEVER
    decreases k
  {
    hide Polled;
    if j < k {
      ResetIsSpent(c, ps, j, k - 1);
      assert StateAt(c, ps, k - 1).combo && StateAt(c, ps, k).combo;
    }
  }

  /** One attempt per hold: between two factory-reset attempts the gesture was let go. */
  lemma ResetsNeedNewHold(c: Controls, ps: seq<Poll>, j: nat, k: nat)
    requires Run(c, ps) && j < k < |ps| && ResetAt(c, ps, j) && ResetAt(c, ps, k)
    ensures exists m :: j < m <= k && !StateAt(c, ps, m).combo
  {
    hide Polled;
    if forall m :: j < m <= k ==> StateAt(c, ps, m).combo {
      assert StateAt(c, ps, j + 1).comboStartedMs == NEVER;
      ResetIsSpent(c, ps, j + 1, k);
    }
  }

  // ---------------------------------------------------------------- debounce

  /** Since the last recorded change every poll has read the same level. */
  predicate SteadySince(c: Controls, ps: seq<Poll>, k: nat, i: nat)
    requires Run(c, ps) && k <= |ps| && i < BUTTONS
  {
    var b := StateAt(c, ps, k).buttons[i];
    forall m :: 0 <= m < k && ps[m].nowMs > b.rawChangedMs ==> ps[m].pressed[i] == b.rawLast
  }

  predicate Ordered(ps: seq<Poll>) { forall j, k :: 0 <= j <= k < |ps| ==> ps[j].nowMs <= ps[k].nowMs }

  predicate Watched(b: Button) { b.enabled && (b.ignoring ==> b.rawLast) }

  lemma ComboKeepsRaw(c: Controls, nowMs: int, i: nat)
    requires |c.buttons| == BUTTONS && i < BUTTONS
    ensures var d := AfterCombo(c, nowMs).0;
            d.buttons[i] == c.buttons[i].(longFired := d.buttons[i].longFired)
  {
  }

  /** One poll of one button keeps the record of the last raw change honest. */
  lemma ButtonStaysSteady(b: Button, raw: bool, nowMs: int)
    requires Watched(b) && b.rawChangedMs <= nowMs
    ensures var a := AfterButton(b, raw, nowMs).0;
            && Watched(a) && a.rawChangedMs <= nowMs
            && (a.rawLast == raw || a.ignoring) && (a.ignoring ==> a.rawLast == raw)
            && (a.rawChangedMs == nowMs || (a.rawChangedMs == b.rawChangedMs && a.rawLast == b.rawLast))
  {
  }

  lemma {:induction false} StaysSteady(c: Controls, ps: seq<Poll>, k: nat, i: nat)
    requires Run(c, ps) && Ordered(ps) && k <= |ps| && i < BUTTONS && Watched(c.buttons[i])
    requires ps != [] ==> c.buttons[i].rawChangedMs <= ps[0].nowMs
    ensures SteadySince(c, ps, k, i) && Watched(StateAt(c, ps, k).buttons[i])
    ensures k < |ps| ==> StateAt(c, ps, k).buttons[i].rawChangedMs <= ps[k].nowMs
    decreases k
  {
    hide AfterButton, AfterCombo, Watched;
    if k > 0 {
      StaysSteady(c, ps, k - 1, i);
      var t, p := StateAt(c, ps, k - 1), ps[k - 1];
      ButtonStaysSteady(t.buttons[i], p.pressed[i], p.nowMs);
      ComboKeepsRaw(t.(buttons := Polled(t.buttons, p)), p.nowMs, i);
      WatchedIgnoresFired(AfterButton(t.buttons[i], p.pressed[i], p.nowMs).0,
                          StateAt(c, ps, k).buttons[i].longFired);
    }
  }

  lemma WatchedIgnoresFired(b: Button, fired: bool)
    requires Watched(b)
    ensures Watched(b.(longFired := fired))
  {
  }

  /** A level is accepted only when it has lasted. */
  lemma ChangeHasLasted(b: Button, raw: bool, nowMs: int)
    requires b.enabled && AfterButton(b, raw, nowMs).0.stable != b.stable
    ensures var a := AfterButton(b, raw, nowMs).0;
            a.stable == raw && (b.ignoring || nowMs - a.rawChangedMs >= DEBOUNCE_MS)
  {
  }

  /** Every debounced press or release: all polls of the last 20 ms read the new level. */
  lemma ChangesAreDebounced(c: Controls, ps: seq<Poll>, k: nat, i: nat)
    requires Run(c, ps) && Ordered(ps) && k < |ps| && i < BUTTONS && Watched(c.buttons[i])
    requires c.buttons[i].rawChangedMs <= ps[0].nowMs
    requires !StateAt(c, ps, k).buttons[i].ignoring
    requires StateAt(c, ps, k).buttons[i].stable != StateAt(c, ps, k + 1).buttons[i].stable
    ensures forall m :: 0 <= m <= k && ps[m].nowMs > ps[k].nowMs - DEBOUNCE_MS ==>
              ps[m].pressed[i] == StateAt(c, ps, k + 1).buttons[i].stable
  {
    hide AfterButton, AfterCombo, Watched;
    var t, p := StateAt(c, ps, k), ps[k];
    StaysSteady(c, ps, k, i);
    StaysSteady(c, ps, k + 1, i);
    ComboKeepsRaw(t.(buttons := Polled(t.buttons, p)), p.nowMs, i);
    WatchedIsEnabled(t.buttons[i]);
    ChangeHasLasted(t.buttons[i], p.pressed[i], p.nowMs);
    ButtonStaysSteady(t.buttons[i], p.pressed[i], p.nowMs);
    NotIgnoringStays(t.buttons[i], p.pressed[i], p.nowMs);
  }

  lemma WatchedIsEnabled(b: Button)
    requires Watched(b)
    ensures b.enabled
  {
  }

  lemma NotIgnoringStays(b: Button, raw: bool, nowMs: int)
    requires !b.ignoring
    ensures !AfterButton(b, raw, nowMs).0.ignoring
  {
  }

  // ---------------------------------------------------------------- what a press does report

  /** One button, polled at these times at one level throughout. */
  function Polling(b: Button, raw: bool, times: seq<int>): Button
  {
    if times == [] then b
    else AfterButton(Polling(b, raw, times[..|times| - 1]), raw, times[|times| - 1]).0
  }

  /** The event of the last of these polls. */
  function LastEvent(b: Button, raw: bool, times: seq<int>): Option<Press>
    requires times != []
  {
    AfterButton(Polling(b, raw, times[..|times| - 1]), raw, times[|times| - 1]).1
  }

  /** At rest: let go long enough, with nothing pending. */
  predicate AtRest(b: Button) { b.enabled && !b.ignoring && !b.stable && !b.rawLast && !b.longFired }

  predicate Timed(times: seq<int>)
  {
    && (forall i :: 0 <= i < |times| ==> times[i] > 0)
    && (forall i, j :: 0 <= i <= j < |times| ==> times[i] <= times[j])
  }

  /** The first of the times that is at least this much after `from`, or `from` itself if none is. */
  function FirstAfter(times: seq<int>, from: int, wait: nat): int
  {
    if times == [] then from
    else
      var earlier := FirstAfter(times[..|times| - 1], from, wait);
      if earlier != from then earlier
      else if times[|times| - 1] - from >= wait then times[|times| - 1]
      else from
  }

  lemma {:induction false} FirstIsLate(times: seq<int>, from: int, wait: nat)
    requires Timed(times) && wait > 0
    ensures var at := FirstAfter(times, from, wait);
            && (at != from <==> times != [] && times[|times| - 1] - from >= wait)
            && (at != from ==> at - from >= wait && at in times)
            && (forall i :: 0 <= i < |times| && times[i] - from >= wait ==> from != at <= times[i])
    decreases |times|
  {
    if times != [] {
      var init := times[..|times| - 1];
      FirstIsLate(init, from, wait);
      forall i | 0 <= i < |times| && times[i] - from >= wait
        ensures from != FirstAfter(times, from, wait) <= times[i]
      {
        if i < |times| - 1 {
          assert init[i] == times[i];
        }
      }
    }
  }

  /**
   * A button pressed from rest and polled at these times: the press counts from the first poll 20 ms or more after the
   * first one, and is reported as long by the first poll 2 s or more after that, and by no other.
   */
  lemma {:induction false} HeldButton(b: Button, times: seq<int>)
    requires AtRest(b) && times != [] && Timed(times)
    ensures var a, t0, now := Polling(b, true, times), times[0], times[|times| - 1];
            var from := FirstAfter(times, t0, 20);
            && a.enabled && !a.ignoring && a.rawLast && a.rawChangedMs == t0
            && a.stable == (now - t0 >= 20) && (a.stable ==> a.pressStartedMs == from > t0)
            && a.longFired == (a.stable && now - from >= 2000)
            && LastEvent(b, true, times)
               == if a.longFired && !Polling(b, true, times[..|times| - 1]).longFired then Some(Long) else None
    decreases |times|
  {
    var init := times[..|times| - 1];
    FirstIsLate(times, times[0], 20);
    if init == [] {
      assert Polling(b, true, init) == b;
    } else {
      assert Timed(init) && init[0] == times[0];
      HeldButton(b, init);
      FirstIsLate(init, times[0], 20);
    }
  }

  /**
   * Let go and polled at these times, a button is released by the first poll 20 ms or more after the first one, and
   * that poll reports a short press exactly if one had counted and was not reported as long; nothing else is reported.
   */
  lemma {:induction false} ReleasedButton(b: Button, times: seq<int>)
    requires b.enabled && !b.ignoring && b.rawLast && (b.longFired ==> b.stable)
    requires times != [] && Timed(times)
    ensures var a, t0, now := Polling(b, false, times), times[0], times[|times| - 1];
            && a.rawChangedMs == t0
            && (if now - t0 >= 20 then AtRest(a) else a == b.(rawLast := false, rawChangedMs := t0))
            && LastEvent(b, false, times)
               == if now - t0 >= 20 && b.stable && !b.longFired && (|times| == 1 || times[|times| - 2] - t0 < 20)
                  then Some(Short) else None
    decreases |times|
  {
    var init := times[..|times| - 1];
    if init == [] {
      assert Polling(b, false, init) == b;
    } else {
      assert Timed(init) && init[0] == times[0];
      ReleasedButton(b, init);
    }
  }

  function TimesOf(ps: seq<Poll>): (r: seq<int>)
    ensures |r| == |ps| && forall k :: 0 <= k < |ps| ==> r[k] == ps[k].nowMs
  {
    seq(|ps|, k requires 0 <= k < |ps| => ps[k].nowMs)
  }

  lemma GestureSpares(c: Controls, p: Poll, i: nat)
    requires |c.buttons| == BUTTONS && WellFormed(p) && 2 <= i < BUTTONS
    ensures AfterPoll(c, p).buttons[i] == AfterButton(c.buttons[i], p.pressed[i], p.nowMs).0
  {
    hide AfterButton;
  }

  /** A button outside the gesture is on its own in the panel. */
  lemma {:induction false} ButtonStandsAlone(c: Controls, ps: seq<Poll>, k: nat, i: nat, raw: bool)
    requires Run(c, ps) && k <= |ps| && 2 <= i < BUTTONS
    requires forall m :: 0 <= m < k ==> ps[m].pressed[i] == raw
    ensures StateAt(c, ps, k).buttons[i] == Polling(c.buttons[i], raw, TimesOf(ps[..k]))
    decreases k
  {
    hide AfterButton, AfterPoll;
    if k > 0 {
      ButtonStandsAlone(c, ps, k - 1, i, raw);
      GestureSpares(StateAt(c, ps, k - 1), ps[k - 1], i);
      assert TimesOf(ps[..k])[..k - 1] == TimesOf(ps[..k - 1]);
    }
  }

  /** The same of the events of the panel: what the last poll reports for that button. */
  lemma PanelReports(c: Controls, ps: seq<Poll>, k: nat, i: nat, raw: bool)
    requires Run(c, ps) && k < |ps| && 2 <= i < BUTTONS
    requires forall m :: 0 <= m <= k ==> ps[m].pressed[i] == raw
    ensures EventAt(c, ps, k, i) == LastEvent(c.buttons[i], raw, TimesOf(ps[..k + 1]))
  {
    hide AfterButton, AfterPoll;
    ButtonStandsAlone(c, ps, k, i, raw);
    assert TimesOf(ps[..k + 1])[..k] == TimesOf(ps[..k]);
  }

  /**
   * The gesture, formed at t0 and held from then on, attempts its factory reset in the first poll 5 s or more after t0
   * and in no other.
   */
  lemma {:induction false} GestureFires(c: Controls, ps: seq<Poll>, k: nat)
    requires Run(c, ps) && k < |ps| && c.combo && 0 <= c.comboStartedMs
    requires forall m :: 0 <= m < |ps| ==> c.comboStartedMs <= ps[m].nowMs
    requires ps[0].nowMs - c.comboStartedMs < 5000 && Ordered(ps)
    requires forall m :: 0 < m <= k + 1 ==> StateAt(c, ps, m).combo
    ensures ResetAt(c, ps, k) <==>
              k > 0 && ps[k].nowMs - c.comboStartedMs >= 5000 > ps[k - 1].nowMs - c.comboStartedMs
    ensures StateAt(c, ps, k + 1).comboStartedMs
         == if ps[k].nowMs - c.comboStartedMs >= 5000 then NEVER else c.comboStartedMs
  {
    hide Polled;
    if k > 0 {
      GestureFires(c, ps, k - 1);
      assert StateAt(c, ps, k).combo;
    }
    assert StateAt(c, ps, k + 1).combo;
  }
}
