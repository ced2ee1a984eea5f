/** Why the freeze watch suspects a channel, and why it gives up on it: the evidence behind each verdict. */
module FreezeEvidence {
  import opened Common
  import opened PlantState
  import opened SensorWatch
  import opened Jobs
  import opened JobSession
  import opened ControlPlane
  import opened ControlTick
  import opened Conditions
  import opened HeatGuarantees
  import opened TickGuarantees
  import opened Firmware
  import opened FirmwareGuarantees
  import opened ZeroCrossGuarantees
  import opened FreezeGuarantees

  // ---------------------------------------------------------------- what a pass shows the watch

  /** One observation, and whether the job was off, so that a pending warning is dropped first. */
  datatype Look = Look(step: StepIn, idle: bool)

  /** What the pass of this input shows: its sample, its job, the SSR as the last pass left it, its clock. */
  function LookOf(s: Sys, i: TickIn): Look
  {
    var job := JobOf(s.p, s.c, i).s;
    Look(StepIn(SampleOf(i), NewSample(s.c, i), JobOn(job), s.p.rt.heaterOn, i.acquiredUs), !job.workOn)
  }

  lemma LookIsExact(s: Sys, i: TickIn)
    ensures var n := Step(s, ControlPass(i)).note.seen; Look(n.step, n.idle) == LookOf(s, i)
  {
    hide Tick, Sense, RunJobs, WatchSensors, SampleAccepted, NewSample, SetPointOf, JobOf, ReadSensors;
    PassIsTick(s, i);
    JobbedIs(s.p, s.c, i);
    SensedWatch(s.p, s.c, i);
    NewIsAccepted(s.c, i);
    assert Seen(s.p, s.c, i) == WatchingOf(Jobbed(s.p, s.c, i), i, SampleAccepted(s.c.watch, i));
  }

  lemma NewIsAccepted(c: Ctl, i: TickIn)
    ensures NewSample(c, i) == SampleAccepted(c.watch, i)
  {
  }

  /** The looks of the passes since power-up, up to state k. */
  function LooksOf(ss: seq<Sys>, es: seq<Event>, k: nat): seq<Look>
    requires |ss| == |es| + 1 && k <= |es|
  {
    if k == 0 || es[k - 1].PowerLoss? then []
    else if es[k - 1].ControlPass? then LooksOf(ss, es, k - 1) + [LookOf(ss[k - 1], es[k - 1].i)]
    else LooksOf(ss, es, k - 1)
  }

  function Seeing(w: Watch, l: Look): Watch { Stepped(Based(w, l.idle), l.step).0 }

  /** The watch after these looks. */
  function WatchOf(ls: seq<Look>): Watch
  {
    if ls == [] then NO_EVIDENCE else Seeing(WatchOf(ls[..|ls| - 1]), ls[|ls| - 1])
  }

  lemma {:induction false} WatchFollowsLooks(ss: seq<Sys>, es: seq<Event>, k: nat)
    requires Run(ss, es) && k <= |es|
    ensures SameEvidence(ss[k].c.watch, WatchOf(LooksOf(ss, es, k)))
  {
    hide PowerUp, Step, Stepped, Based, LookOf;
    if k == 0 {
      PowerUpHasNoEvidence(ss[0]);
    } else {
      assert Next(ss, es, k - 1);
      var e := es[k - 1];
      if e.PowerLoss? {
        BootHasNoEvidence(ss[k - 1], e.b);
      } else if e.ControlPass? {
        WatchFollowsLooks(ss, es, k - 1);
        PassStep(ss[k - 1], e.i);
        LookIsExact(ss[k - 1], e.i);
        var ls, l := LooksOf(ss, es, k - 1), LookOf(ss[k - 1], e.i);
        assert (ls + [l])[..|ls|] == ls;
        StepIgnoresNumber(ss[k - 1].c.watch, WatchOf(ls), l.step, l.idle);
      } else {
        WatchFollowsLooks(ss, es, k - 1);
        OthersKeepFan(ss[k - 1], e);
      }
    }
  }

  // ---------------------------------------------------------------- evidence

  /** A new, readable look at a channel that reads the code. */
  predicate Shows(l: Look, ch: bool, raw: int)
  {
    l.step.isNew && ReadsBoth(l.step.sample) && RawOf(l.step.sample, ch) == raw
  }

  /** Looks a..b-1 all show the code during a heating job, in time order and at most 1.5 s apart. */
  predicate Still(ls: seq<Look>, a: nat, b: nat, ch: bool, raw: int)
  {
    && a < b <= |ls|
    && (forall k :: a <= k < b ==> Shows(ls[k], ch, raw) && ls[k].step.job)
    && (forall k :: a < k < b ==> 0 < ls[k].step.nowUs - ls[k - 1].step.nowUs <= 1_500_000)
  }

  /** Time the SSR was on among looks a..b-1, as the looks tell it. */
  function OnTime(ls: seq<Look>, a: nat, b: nat): int
    requires a < b <= |ls|
    decreases b
  {
    if b == a + 1 then 0
    else OnTime(ls, a, b - 1) + if ls[b - 1].step.ssrOn then ls[b - 1].step.nowUs - ls[b - 2].step.nowUs else 0
  }

  /** A minute of one code during a heating job, with the SSR on for at least half of it. */
  predicate MinuteStill(ls: seq<Look>, a: nat, b: nat, ch: bool, raw: int)
  {
    && Still(ls, a, b, ch, raw)
    && ls[b - 1].step.nowUs - ls[a].step.nowUs >= 60_000_000 && OnTime(ls, a, b) >= 30_000_000
  }

  predicate NeverMoved(ls: seq<Look>, b: nat, ch: bool, raw: int)
  {
    forall k :: b <= k < |ls| && ls[k].step.isNew && ReadsBoth(ls[k].step.sample) ==> Shows(ls[k], ch, raw)
  }

  /** The window of a channel that is being watched covers what its last looks showed. */
  predicate Covered(ls: seq<Look>, a: nat, c: Channel, ch: bool)
  {
    && Still(ls, a, |ls|, ch, c.raw)
    && c.stillUs == ls[a].step.nowUs && c.onUs <= OnTime(ls, a, |ls|)
  }

  predicate Accused(ls: seq<Look>, a: nat, b: nat, c: Channel, ch: bool)
  {
    MinuteStill(ls, a, b, ch, c.suspectRaw) && NeverMoved(ls, b, ch, c.suspectRaw)
  }

  /** What is behind the state of one channel. */
  ghost predicate Grounded(ls: seq<Look>, w: Watch, ch: bool)
  {
    && (w.tracking && !w.frozen ==>
          && ls != [] && w.previousUs == ls[|ls| - 1].step.nowUs
          && exists a: nat :: Covered(ls, a, w.Of(ch), ch))
    && (w.Of(ch).suspect ==> exists a: nat, b: nat :: Accused(ls, a, b, w.Of(ch), ch))
  }

  // ---------------------------------------------------------------- one look

  lemma ReadsIsReadable(s: Sample)
    ensures ReadsBoth(s) == Readable(s)
  {
  }

  /** The suspicion of a channel that was there before this look, which repeats its code. */
  predicate Kept(before: Channel, after: Channel, raw: int)
  {
    after.suspect ==> before.suspect && after.suspectRaw == before.suspectRaw == raw
  }

  /** The window of the channel starts anew with this look. */
  predicate Restarts(before: Channel, after: Channel, raw: int, nowUs: int)
  {
    after.raw == raw && after.stillUs == nowUs && after.onUs == 0 && Kept(before, after, raw)
  }

  /** The window goes on, and may end in suspicion. */
  predicate GoesOn(w: Watch, before: Channel, after: Channel, i: StepIn, raw: int)
  {
    var dt := i.nowUs - w.previousUs;
    && w.tracking && !w.frozen && i.job && 0 < dt <= 1_500_000
    && before.raw == after.raw == raw && after.stillUs == before.stillUs
    && after.onUs <= before.onUs + (if i.ssrOn then dt else 0)
    && (|| Kept(before, after, raw)
        || (after.suspectRaw == raw && i.nowUs - after.stillUs >= 60_000_000 && after.onUs >= 30_000_000))
  }

  lemma ChannelStep(w: Watch, l: Look, ch: bool)
    ensures var v, i := Seeing(w, l), l.step;
            var raw := RawOf(i.sample, ch);
            if !i.isNew || !Readable(i.sample) then
              !v.tracking && v.Of(ch) == w.Of(ch)
            else if v.frozen then Kept(w.Of(ch), v.Of(ch), raw)
            else
              && v.tracking == i.job && v.previousUs == i.nowUs
              && (Restarts(w.Of(ch), v.Of(ch), raw, i.nowUs) || GoesOn(w, w.Of(ch), v.Of(ch), i, raw))
  {
    hide Readable, RawInRange;
  }

  // ---------------------------------------------------------------- evidence grows with each look

  lemma {:induction false} OnTimeKept(ls: seq<Look>, l: Look, a: nat, b: nat)
    requires a < b <= |ls|
    ensures OnTime(ls + [l], a, b) == OnTime(ls, a, b)
    decreases b
  {
    if b > a + 1 {
      OnTimeKept(ls, l, a, b - 1);
    }
  }

  lemma AccusedStays(ls: seq<Look>, l: Look, a: nat, b: nat, c: Channel, d: Channel, ch: bool)
    requires Accused(ls, a, b, c, ch) && d.suspectRaw == c.suspectRaw
    requires l.step.isNew && ReadsBoth(l.step.sample) ==> RawOf(l.step.sample, ch) == c.suspectRaw
    ensures Accused(ls + [l], a, b, d, ch)
  {
    hide ReadsBoth;
    OnTimeKept(ls, l, a, b);
  }

  lemma StillGrows(ls: seq<Look>, l: Look, a: nat, ch: bool, raw: int)
    requires Still(ls, a, |ls|, ch, raw) && Shows(l, ch, raw) && l.step.job
    requires 0 < l.step.nowUs - ls[|ls| - 1].step.nowUs <= 1_500_000
    ensures Still(ls + [l], a, |ls| + 1, ch, raw)
    ensures OnTime(ls + [l], a, |ls| + 1)
         == OnTime(ls, a, |ls|) + if l.step.ssrOn then l.step.nowUs - ls[|ls| - 1].step.nowUs else 0
  {
    hide Shows;
    OnTimeKept(ls, l, a, |ls|);
  }

  lemma StillBounds(ls: seq<Look>, a: nat, b: nat, ch: bool, raw: int)
    requires Still(ls, a, b, ch, raw)
    ensures a < b <= |ls|
  {
  }

  /** Where the window goes on, it covers this look too, and a new suspicion rests on it. */
  lemma CoverGrows(ls: seq<Look>, l: Look, a: nat, w: Watch, d: Channel, ch: bool)
    requires ls != [] && w.previousUs == ls[|ls| - 1].step.nowUs && Covered(ls, a, w.Of(ch), ch)
    requires var raw := RawOf(l.step.sample, ch); Shows(l, ch, raw) && GoesOn(w, w.Of(ch), d, l.step, raw)
    ensures Covered(ls + [l], a, d, ch)
    ensures Kept(w.Of(ch), d, RawOf(l.step.sample, ch)) || Accused(ls + [l], a, |ls| + 1, d, ch)
  {
    hide Shows, Still, OnTime;
    StillGrows(ls, l, a, ch, w.Of(ch).raw);
    StillBounds(ls, a, |ls|, ch, w.Of(ch).raw);
    assert (ls + [l])[|ls|] == l && (ls + [l])[a] == ls[a];
  }

  lemma CoverStarts(ls: seq<Look>, l: Look, before: Channel, d: Channel, ch: bool)
    requires Restarts(before, d, RawOf(l.step.sample, ch), l.step.nowUs) && Shows(l, ch, d.raw) && l.step.job
    ensures Covered(ls + [l], |ls|, d, ch)
  {
    hide Shows;
  }

  lemma AccusationStays(ls: seq<Look>, w: Watch, l: Look, ch: bool)
    requires Grounded(ls, w, ch)
    requires var raw := RawOf(l.step.sample, ch);
             if l.step.isNew && ReadsBoth(l.step.sample) then Kept(w.Of(ch), Seeing(w, l).Of(ch), raw)
             else Seeing(w, l).Of(ch) == w.Of(ch)
    ensures var v := Seeing(w, l);
            v.Of(ch).suspect ==> exists a: nat, b: nat :: Accused(ls + [l], a, b, v.Of(ch), ch)
  {
    hide ReadsBoth, Seeing, Covered, Accused;
    var v := Seeing(w, l);
    if v.Of(ch).suspect {
      var a: nat, b: nat :| Accused(ls, a, b, w.Of(ch), ch);
      AccusedBounds(ls, a, b, w.Of(ch), ch);
      AccusedStays(ls, l, a, b, w.Of(ch), v.Of(ch), ch);
    }
  }

  lemma AccusedBounds(ls: seq<Look>, a: nat, b: nat, c: Channel, ch: bool)
    requires Accused(ls, a, b, c, ch)
    ensures a < b <= |ls|
  {
  }

  lemma GroundedStep(ls: seq<Look>, w: Watch, l: Look, ch: bool)
    requires Grounded(ls, w, ch)
    ensures Grounded(ls + [l], Seeing(w, l), ch)
  {
    hide ReadsBoth, Readable, Seeing, Accused, Covered, GoesOn, Restarts;
    ReadsIsReadable(l.step.sample);
    ChannelStep(w, l, ch);
    var v, raw := Seeing(w, l), RawOf(l.step.sample, ch);
    if !l.step.isNew || !ReadsBoth(l.step.sample) || v.frozen {
      AccusationStays(ls, w, l, ch);
    } else if Restarts(w.Of(ch), v.Of(ch), raw, l.step.nowUs) {
      RestartKeeps(w.Of(ch), v.Of(ch), raw, l.step.nowUs);
      AccusationStays(ls, w, l, ch);
      if v.tracking {
        CoverStarts(ls, l, w.Of(ch), v.Of(ch), ch);
      }
    } else {
      GoesOnTracks(w, w.Of(ch), v.Of(ch), l.step, raw);
      var a: nat :| Covered(ls, a, w.Of(ch), ch);
      CoverGrows(ls, l, a, w, v.Of(ch), ch);
      if Kept(w.Of(ch), v.Of(ch), raw) {
        AccusationStays(ls, w, l, ch);
      }
    }
  }

  lemma RestartKeeps(before: Channel, after: Channel, raw: int, nowUs: int)
    requires Restarts(before, after, raw, nowUs)
    ensures Kept(before, after, raw) && after.raw == raw
  {
  }

  lemma GoesOnTracks(w: Watch, before: Channel, after: Channel, i: StepIn, raw: int)
    requires GoesOn(w, before, after, i, raw)
    ensures w.tracking && !w.frozen && i.job
  {
  }

  lemma {:induction false} EvidenceInRun(ls: seq<Look>, ch: bool)
    ensures Grounded(ls, WatchOf(ls), ch)
  {
    hide Seeing, Accused, Covered;
    if ls != [] {
      var n := |ls| - 1;
      EvidenceInRun(ls[..n], ch);
      GroundedStep(ls[..n], WatchOf(ls[..n]), ls[n], ch);
      assert ls[..n] + [ls[n]] == ls;
    }
  }

  // ---------------------------------------------------------------- the verdicts

  /**
   * In every run, a suspected channel has, since power-up, shown one code in every pass over a minute of a heating
   * job, passes coming at most 1.5 s apart and the SSR being on for at least 30 s of it; and it has shown no other
   * code since.
   */
  lemma SuspicionIsEarned(ss: seq<Sys>, es: seq<Event>, k: nat, ch: bool) returns (a: nat, b: nat)
    requires Run(ss, es) && k <= |es| && ss[k].c.watch.Of(ch).suspect
    ensures var ls, raw := LooksOf(ss, es, k), ss[k].c.watch.Of(ch).suspectRaw;
            MinuteStill(ls, a, b, ch, raw) && NeverMoved(ls, b, ch, raw)
  {
    hide PowerUp, Next, Seeing, Accused, Covered, LookOf;
    var ls := LooksOf(ss, es, k);
    WatchFollowsLooks(ss, es, k);
    EvidenceInRun(ls, ch);
    a, b :| Accused(ls, a, b, WatchOf(ls).Of(ch), ch);
    AccusedIs(ls, a, b, WatchOf(ls).Of(ch), ch);
  }

  lemma AccusedIs(ls: seq<Look>, a: nat, b: nat, c: Channel, ch: bool)
    requires Accused(ls, a, b, c, ch)
    ensures MinuteStill(ls, a, b, ch, c.suspectRaw) && NeverMoved(ls, b, ch, c.suspectRaw)
  {
  }

  /** A channel's window of a minute ends with this step. */
  predicate Ends(w: Watch, v: Watch, i: StepIn, ch: bool)
  {
    var raw, after := RawOf(i.sample, ch), v.Of(ch);
    && GoesOn(w, w.Of(ch), after, i, raw) && i.nowUs - after.stillUs >= 60_000_000 && after.onUs >= 30_000_000
  }

  /** 300 s after the warning, or before it, by a clock that has run back. */
  predicate Overdue(warningUs: int, nowUs: int) { nowUs < warningUs || nowUs - warningUs >= 300_000_000 }

  lemma WarningStep(w: Watch, l: Look)
    requires w.frozen ==> w.warningUs != 0
    ensures var v, i := Seeing(w, l), l.step;
            && (v.frozen ==> && v.warningUs == w.warningUs != 0
                             && (w.frozen || (!l.idle && Overdue(w.warningUs, i.nowUs))))
            && (!v.frozen && v.warningUs != 0 ==>
                  || (v.warningUs == w.warningUs && !w.frozen && !l.idle)
                  || (v.warningUs == i.nowUs && i.isNew && Readable(i.sample) &&
                      (Ends(w, v, i, false) || Ends(w, v, i, true))))
  {
    hide Readable, RawInRange;
  }

  /** Looks a..b-1 made the minute that raised the warning of time t. */
  predicate Raised(ls: seq<Look>, a: nat, b: nat, t: int)
  {
    && a < b <= |ls| && ls[b - 1].step.nowUs == t
    && var s := ls[a].step.sample;
    MinuteStill(ls, a, b, false, s.chamberRaw) || MinuteStill(ls, a, b, true, s.ptcRaw)
  }

  /** No look since found the job off; or one of them, with the job still on, came after the deadline. */
  predicate Lasts(ls: seq<Look>, b: nat, w: Watch)
  {
    if w.frozen then exists m :: b <= m < |ls| && !ls[m].idle && Overdue(w.warningUs, ls[m].step.nowUs)
    else forall m :: b <= m < |ls| ==> !ls[m].idle
  }

  ghost predicate Warned(ls: seq<Look>, w: Watch)
  {
    && (w.frozen ==> w.warningUs != 0)
    && (w.warningUs != 0 ==> exists a: nat, b: nat :: Raised(ls, a, b, w.warningUs) && Lasts(ls, b, w))
  }

  lemma StillStays(ls: seq<Look>, l: Look, a: nat, b: nat, ch: bool, raw: int)
    requires MinuteStill(ls, a, b, ch, raw)
    ensures MinuteStill(ls + [l], a, b, ch, raw)
  {
    hide Shows;
    OnTimeKept(ls, l, a, b);
  }

  lemma RaisedStays(ls: seq<Look>, l: Look, a: nat, b: nat, t: int)
    requires Raised(ls, a, b, t)
    ensures Raised(ls + [l], a, b, t)
  {
    hide MinuteStill;
    var s := ls[a].step.sample;
    if MinuteStill(ls, a, b, false, s.chamberRaw) {
      StillStays(ls, l, a, b, false, s.chamberRaw);
    } else {
      StillStays(ls, l, a, b, true, s.ptcRaw);
    }
  }

  lemma EndRaises(ls: seq<Look>, w: Watch, l: Look, ch: bool) returns (a: nat)
    requires Grounded(ls, w, ch) && l.step.isNew && Readable(l.step.sample) && Ends(w, Seeing(w, l), l.step, ch)
    ensures Raised(ls + [l], a, |ls| + 1, l.step.nowUs)
  {
    hide Readable, ReadsBoth, Seeing, Covered, Accused, Raised;
    ReadsIsReadable(l.step.sample);
    var v := Seeing(w, l);
    a :| Covered(ls, a, w.Of(ch), ch);
    CoverGrows(ls, l, a, w, v.Of(ch), ch);
    CoverRaises(ls + [l], a, v.Of(ch), ch);
  }

  lemma CoverRaises(ls: seq<Look>, a: nat, c: Channel, ch: bool)
    requires ls != [] && Covered(ls, a, c, ch)
    requires ls[|ls| - 1].step.nowUs - c.stillUs >= 60_000_000 && c.onUs >= 30_000_000
    ensures Raised(ls, a, |ls|, ls[|ls| - 1].step.nowUs)
  {
    hide ReadsBoth, OnTime;
    assert Shows(ls[a], ch, c.raw);
  }

  lemma WarnedStep(ls: seq<Look>, w: Watch, l: Look)
    requires Warned(ls, w) && Grounded(ls, w, false) && Grounded(ls, w, true)
    ensures Warned(ls + [l], Seeing(w, l))
  {
    hide Readable, Seeing, Ends, Raised, Overdue;
    WarningStep(w, l);
    var v := Seeing(w, l);
    if v.warningUs != 0 {
      if v.warningUs == w.warningUs && (v.frozen || (!w.frozen && !l.idle)) {
        var a: nat, b: nat :| Raised(ls, a, b, w.warningUs) && Lasts(ls, b, w);
        RaisedStays(ls, l, a, b, w.warningUs);
        RaisedBounds(ls, a, b, w.warningUs);
        LastsOn(ls, l, b, w, v);
      } else {
        var a := EndRaises(ls, w, l, !Ends(w, v, l.step, false));
        assert Lasts(ls + [l], |ls| + 1, v);
      }
    }
  }

  lemma RaisedBounds(ls: seq<Look>, a: nat, b: nat, t: int)
    requires Raised(ls, a, b, t)
    ensures a < b <= |ls|
  {
  }

  lemma LastsOn(ls: seq<Look>, l: Look, b: nat, w: Watch, v: Watch)
    requires Lasts(ls, b, w) && b <= |ls| && v.warningUs == w.warningUs
    requires if v.frozen then w.frozen || (!l.idle && Overdue(w.warningUs, l.step.nowUs)) else !w.frozen && !l.idle
    ensures Lasts(ls + [l], b, v)
  {
    hide Overdue;
    var ms := ls + [l];
    if v.frozen {
      if w.frozen {
        var m :| b <= m < |ls| && !ls[m].idle && Overdue(w.warningUs, ls[m].step.nowUs);
        assert ms[m] == ls[m];
      } else {
        assert ms[|ls|] == l;
      }
    }
  }

  lemma {:induction false} WarningInRun(ls: seq<Look>)
    ensures Warned(ls, WatchOf(ls))
  {
    hide Seeing, Raised, Lasts;
    if ls != [] {
      var n := |ls| - 1;
      WarningInRun(ls[..n]);
      EvidenceInRun(ls[..n], false);
      EvidenceInRun(ls[..n], true);
      WarnedStep(ls[..n], WatchOf(ls[..n]), ls[n]);
      assert ls[..n] + [ls[n]] == ls;
    }
  }

  /**
   * In every run, a pending warning bears the time of the pass that completed a minute of stillness under heat on one
   * of the channels, and no pass since has found the job off; and FROZEN is in force only after a pass that found the
   * job on 300 s or more after that time.
   */
  lemma WarningIsEarned(ss: seq<Sys>, es: seq<Event>, k: nat) returns (a: nat, b: nat)
    requires Run(ss, es) && k <= |es| && (ss[k].c.watch.warningUs != 0 || ss[k].c.watch.frozen)
    ensures var ls, w := LooksOf(ss, es, k), ss[k].c.watch;
            && Raised(ls, a, b, w.warningUs)
            && if w.frozen then exists m :: b <= m < |ls| && !ls[m].idle && Overdue(w.warningUs, ls[m].step.nowUs)
               else forall m :: b <= m < |ls| ==> !ls[m].idle
  {
    hide PowerUp, Next, Seeing, Raised, LookOf, Overdue;
    var ls := LooksOf(ss, es, k);
    WatchFollowsLooks(ss, es, k);
    WarningInRun(ls);
    a, b :| Raised(ls, a, b, WatchOf(ls).warningUs) && Lasts(ls, b, WatchOf(ls));
  }

  // ---------------------------------------------------------------- the deadline

  /**
   * From state j to state k power stays on, every pass finds the job on, and passes come in time order from `since` on,
   * each new readable sample repeating the code on the channel.
   */
  predicate KeepsWorking(ss: seq<Sys>, es: seq<Event>, j: nat, k: nat, ch: bool, raw: int, since: int)
    requires |ss| == |es| + 1
  {
    && j <= k && SameBoot(es, j, k)
    && (forall m :: j <= m < k && es[m].ControlPass? ==>
          var c, i := ss[m].c, es[m].i;
          && JobOf(ss[m].p, c, i).s.workOn && since <= i.acquiredUs
          && (GoodSample(c, i) ==> RawOf(SampleOf(i), ch) == raw))
    && (forall a: nat, b: nat :: j <= a < b < k && es[a].ControlPass? && es[b].ControlPass? ==>
          es[a].i.acquiredUs <= es[b].i.acquiredUs)
  }

  lemma PassWorks(ss: seq<Sys>, es: seq<Event>, m: nat)
    requires Steps(ss, es) && m < |es| && es[m].ControlPass?
    ensures var n, c, i := ss[m + 1].note.seen, ss[m].c, es[m].i;
            && n.idle == !JobOf(ss[m].p, c, i).s.workOn && n.step.sample == SampleOf(i)
            && (n.step.isNew && Readable(n.step.sample) <==> GoodSample(c, i))
            && (GoodSample(c, i) && n.health in {Frozen, Warning} ==> (ss[m + 1].c.watch.frozen <==> n.health.Frozen?))
  {
    hide Step, Stepped, Based, SampleAccepted, Readable, GoodSample, JobOf;
    assert Next(ss, es, m);
    LookIsExact(ss[m], es[m].i);
    PassStep(ss[m], es[m].i);
    SampleIsGood(ss[m].c, es[m].i);
    var n := ss[m + 1].note.seen;
    VerdictShows(Based(ss[m].c.watch, n.idle), n.step);
  }

  lemma VerdictShows(w: Watch, i: StepIn)
    ensures var (v, health) := Stepped(w, i);
            health in {Frozen, Warning} ==> (v.frozen <==> health.Frozen?)
  {
    hide Readable, Observe;
  }

  lemma KeepsWorkingIs(ss: seq<Sys>, es: seq<Event>, j: nat, k: nat, ch: bool, raw: int, since: int)
    requires Steps(ss, es) && KeepsWorking(ss, es, j, k, ch, raw, since)
    ensures StillWorking(ss, es, j, k, ch, raw, since)
  {
    hide Step, Next, JobOf, GoodSample, Readable;
    forall m | j <= m < k && es[m].ControlPass?
      ensures var n := ss[m + 1].note.seen;
              && !n.idle && since <= es[m].i.acquiredUs
              && (n.step.isNew && Readable(n.step.sample) ==> RawOf(n.step.sample, ch) == raw)
    {
      PassWorks(ss, es, m);
    }
  }

  /**
   * The deadline is fixed. Once a channel is suspect with a warning raised at `since`, and as long as the job stays on
   * and that channel never moves, a pass with a good sample leaves the watch frozen, and the latch set, exactly if it
   * comes 300 s or more after `since`, whatever pauses, SSR off-time, bad samples or movement of the other channel lie
   * between; and from then on no pass leaves the SSR on.
   */
  lemma DeadlineIsExact(ss: seq<Sys>, es: seq<Event>, j: nat, k: nat, ch: bool, raw: int)
    requires Steps(ss, es) && j <= k < |es| && es[k].ControlPass?
    requires var w := ss[j].c.watch; w.Of(ch).suspect && w.Of(ch).suspectRaw == raw && w.warningUs != 0 && !w.frozen
    requires KeepsWorking(ss, es, j, k + 1, ch, raw, ss[j].c.watch.warningUs)
    ensures var late := es[k].i.acquiredUs - ss[j].c.watch.warningUs >= 300_000_000;
            && (GoodSample(ss[k].c, es[k].i) ==>
                  && (ss[k + 1].c.watch.frozen <==> late) && (late ==> ss[k + 1].p.latch.latched))
            && (late ==> !ss[k + 1].p.ssr)
  {
    hide Step, Next, JobOf, GoodSample, Readable, KeepsWorking, StillWorking;
    var since := ss[j].c.watch.warningUs;
    KeepsWorkingIs(ss, es, j, k + 1, ch, raw, since);
    DeadlineHolds(ss, es, j, k, ch, raw, since);
    PassWorks(ss, es, k);
  }
}
