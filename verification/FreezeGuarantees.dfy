/** The freeze watch over whole runs of the device: how long a still channel can be heated. */
module FreezeGuarantees {
  import opened PlantState
  import opened SensorWatch
  import opened ControlPlane
  import opened ControlTick
  import opened JobSession
  import opened TickGuarantees
  import opened Firmware
  import opened FirmwareGuarantees
  import opened ZeroCrossGuarantees

  // ---------------------------------------------------------------- one pass

  /** Equal but for the acquisition number, which the detector never looks at. */
  predicate SameEvidence(w: Watch, v: Watch) { w == v.(sequence := w.sequence) }

  function Stepped(w: Watch, i: StepIn): (Watch, Health) { AfterStep(w, i.sample, i.isNew, i.job, i.ssrOn, i.nowUs) }

  /** The watch as the step of a pass finds it. */
  function Based(w: Watch, idle: bool): Watch { if idle then AfterOff(w) else w }

  lemma StepIgnoresNumber(w: Watch, v: Watch, i: StepIn, idle: bool)
    requires SameEvidence(w, v)
    ensures SameEvidence(Stepped(Based(w, idle), i).0, Stepped(Based(v, idle), i).0)
    ensures Stepped(Based(w, idle), i).1 == Stepped(Based(v, idle), i).1
  {
    hide Readable, Observe, Exonerate;
  }

  lemma WatchStep(a: Pass, i: TickIn, accepted: bool)
    ensures var n := WatchingOf(a, i, accepted);
            (WatchSensors(a, i, accepted).0.c.watch, n.health) == Stepped(Based(a.c.watch, n.idle), n.step)
  {
    hide AfterStep, AfterOff;
  }

  lemma SensedWatch(p: Plant, c: Ctl, i: TickIn)
    ensures var a := Sense(p, c, i); SameEvidence(a.c.watch, c.watch) && a.rt.heaterOn == p.rt.heaterOn
  {
    hide HandOverLease, SampleAccepted, AfterCut, ReadSensors;
    ReadingKeepsMirror(p.rt, i, SampleAccepted(c.watch, i));
  }

  lemma ReadingKeepsMirror(rt: Runtime, i: TickIn, accepted: bool)
    ensures ReadSensors(rt, i, accepted).heaterOn == rt.heaterOn
  {
  }

  lemma WatchKept(p: Plant, c: Ctl, i: TickIn)
    ensures Tick(p, c, i).c.watch == Watched(p, c, i).c.watch
  {
    hide Tick, Watched, DecideDemand, JudgeFaults, ConsultLatch, PlanOutputs, Commit, Drive;
    TickUnfolds(p, c, i);
    DemandFrame(Watched(p, c, i), i);
    JudgeFacts(Decided(p, c, i), i);
    LatchFrame(Judged(p, c, i), Decided(p, c, i).sensorsOk, Decided(p, c, i).overtemp);
  }

  /** A pass steps the watch once, on its own sample and clock, with the SSR as the previous pass left it. */
  lemma PassWatches(p: Plant, c: Ctl, i: TickIn)
    ensures var n := Seen(p, c, i);
            var (w, health) := Stepped(Based(c.watch, n.idle), n.step);
            && SameEvidence(Tick(p, c, i).c.watch, w) && n.health == health
            && n.step.sample == SampleOf(i) && n.step.isNew == SampleAccepted(c.watch, i)
            && n.step.nowUs == i.acquiredUs && n.step.ssrOn == p.rt.heaterOn
  {
    hide Tick, Sense, RunJobs, WatchSensors, SampleAccepted, Stepped, Based, JobHeats;
    var accepted := SampleAccepted(c.watch, i);
    var a := Jobbed(p, c, i);
    var n := Seen(p, c, i);
    SensedWatch(p, c, i);
    RunJobsFacts(Sense(p, c, i), i);
    WatchKept(p, c, i);
    WatchStep(a, i, accepted);
    StepIgnoresNumber(a.c.watch, c.watch, n.step, n.idle);
  }

  lemma TrustedHealth(a: Pass, i: TickIn, accepted: bool)
    requires SensorsOk(WatchSensors(a, i, accepted).0.rt)
    ensures WatchSensors(a, i, accepted).1.Healthy? || WatchSensors(a, i, accepted).1.Warning?
  {
    hide StepWatch;
  }

  /** A pass that leaves the SSR on watched a heating job on a fresh readable sample, and found it trustworthy. */
  lemma EnergisedPassWatches(p: Plant, c: Ctl, i: TickIn)
    requires Tick(p, c, i).p.ssr
    ensures var n := Seen(p, c, i);
            && n.step.isNew && Readable(n.step.sample) && n.step.job && !n.idle
            && (n.health.Healthy? || n.health.Warning?)
  {
    hide Tick, Sense, RunJobs, WatchSensors, DecideDemand, JudgeFaults, ConsultLatch, PlanOutputs, Readable,
         SampleAccepted, SensorsOk, Overtemp;
    EnergisedPlan(p, c, i);
    PlannedHeat(p, c, i);
    ConsultedHeat(p, c, i);
    WatchedSample(p, c, i);
    DemandHeats(Watched(p, c, i), i);
    WatchFacts(Jobbed(p, c, i), i, SampleAccepted(c.watch, i));
    UsableIsOk(Watched(p, c, i).rt, SampleOf(i));
    TrustedHealth(Jobbed(p, c, i), i, SampleAccepted(c.watch, i));
  }

  lemma UsableIsOk(rt: Runtime, s: Sample)
    requires UsableSensors(rt, s)
    ensures SensorsOk(rt)
  {
  }

  lemma FrozenIsInvalid(a: Pass, i: TickIn, accepted: bool)
    requires WatchSensors(a, i, accepted).1.Frozen?
    ensures !ValidSensors(WatchSensors(a, i, accepted).0.rt)
  {
    hide StepWatch;
  }

  /** A working job whose sample is reported frozen is stopped in the same pass: latched, and the SSR off. */
  lemma FrozenPassLatches(p: Plant, c: Ctl, i: TickIn)
    requires Seen(p, c, i).health.Frozen? && !Seen(p, c, i).idle
    ensures Tick(p, c, i).p.latch.latched && !Tick(p, c, i).p.ssr
  {
    hide Tick, Sense, RunJobs, WatchSensors, DecideDemand, JudgeFaults, ConsultLatch, SampleAccepted;
    var a := Jobbed(p, c, i);
    FrozenIsInvalid(a, i, SampleAccepted(c.watch, i));
    WatchFacts(a, i, SampleAccepted(c.watch, i));
    BadSensorsAreHazard(Watched(p, c, i), i);
    LatchFacts(Judged(p, c, i), Decided(p, c, i).sensorsOk, Decided(p, c, i).overtemp);
    TickUnfolds(p, c, i);
    TickMovesLatch(p, c, i);
    if Tick(p, c, i).p.ssr {
      EnergisedPlan(p, c, i);
    }
  }

  // ---------------------------------------------------------------- the watch over runs

  /** The pass of a step from s to t, as the freeze watch saw it. */
  lemma PassStep(s: Sys, i: TickIn)
    ensures var t := Step(s, ControlPass(i));
            var n := t.note.seen;
            var (w, health) := Stepped(Based(s.c.watch, n.idle), n.step);
            && SameEvidence(t.c.watch, w) && n.health == health
            && n.step.sample == SampleOf(i) && n.step.isNew == SampleAccepted(s.c.watch, i)
            && n.step.nowUs == i.acquiredUs && n.step.ssrOn == s.p.rt.heaterOn
            && (t.p.ssr ==> n.step.isNew && Readable(n.step.sample) && n.step.job && !n.idle
                            && (n.health.Healthy? || n.health.Warning?))
            && (n.health.Frozen? && !n.idle ==> t.p.latch.latched && !t.p.ssr)
  {
    hide Tick, Seen, Step, Stepped, Based, SampleAccepted, Readable;
    PassIsTick(s, i);
    PassWatches(s.p, s.c, i);
    if Tick(s.p, s.c, i).p.ssr {
      EnergisedPassWatches(s.p, s.c, i);
    }
    if Seen(s.p, s.c, i).health.Frozen? && !Seen(s.p, s.c, i).idle {
      FrozenPassLatches(s.p, s.c, i);
    }
  }

  // ---------------------------------------------------------------- evidence is never from the future

  predicate SameBoot(es: seq<Event>, a: nat, b: nat) { b <= |es| && forall m :: a <= m < b ==> !es[m].PowerLoss? }

  /** The clock never runs backwards between two passes of a boot. */
  predicate ClockRuns(es: seq<Event>)
  {
    forall a: nat, b: nat {:trigger SameBoot(es, a, b)} ::
      a < b < |es| && es[a].ControlPass? && es[b].ControlPass? && SameBoot(es, a, b) ==>
        es[a].i.acquiredUs <= es[b].i.acquiredUs
  }

  /** No pass of the boot of state k came after time t. */
  predicate PassedBy(es: seq<Event>, k: nat, t: int)
    requires k <= |es|
  {
    forall a: nat :: a < k && es[a].ControlPass? && SameBoot(es, a, k) ==> es[a].i.acquiredUs <= t
  }

  lemma BootHasNoEvidence(s: Sys, b: BootIn)
    ensures Step(s, PowerLoss(b)).c.watch == NO_EVIDENCE
  {
    hide BootLatch, LimitTargets, Sanitized;
  }

  lemma PowerUpHasNoEvidence(s: Sys)
    requires PowerUp(s)
    ensures s.c.watch == NO_EVIDENCE
  {
    hide Booted;
    var b: BootIn :| s == Booted(s.cells, s.marker, s.mailbox.durable, b);
    assert Step(s, PowerLoss(b)) == s;
    BootHasNoEvidence(s, b);
  }

  lemma PassKeepsCausal(w: Watch, i: StepIn, idle: bool, v: Watch, t: int)
    requires Causal(w, i.nowUs) && i.nowUs <= t && SameEvidence(v, Stepped(Based(w, idle), i).0)
    ensures Causal(v, t)
  {
    CausalKept(w, i);
    CausalKept(Based(w, idle), i);
  }

  /** In every run the freeze watch only holds evidence of the past. */
  lemma {:induction false} CausalInRun(ss: seq<Sys>, es: seq<Event>, k: nat, t: int)
    requires Run(ss, es) && ClockRuns(es) && k <= |es| && PassedBy(es, k, t)
    ensures Causal(ss[k].c.watch, t)
  {
    hide PowerUp, Step, Stepped, Based, SameEvidence;
    if k == 0 {
      PowerUpHasNoEvidence(ss[0]);
    } else {
      assert Next(ss, es, k - 1);
      var e := es[k - 1];
      if e.PowerLoss? {
        BootHasNoEvidence(ss[k - 1], e.b);
      } else if e.ControlPass? {
        assert SameBoot(es, k - 1, k);
        CausalInRun(ss, es, k - 1, e.i.acquiredUs);
        PassStep(ss[k - 1], e.i);
        var n := ss[k].note.seen;
        PassKeepsCausal(ss[k - 1].c.watch, n.step, n.idle, ss[k].c.watch, t);
      } else {
        forall a: nat | a < k - 1 && es[a].ControlPass? && SameBoot(es, a, k - 1)
          ensures es[a].i.acquiredUs <= t
        {
          assert SameBoot(es, a, k);
        }
        CausalInRun(ss, es, k - 1, t);
        OthersKeepFan(ss[k - 1], e);
      }
    }
  }

  // ---------------------------------------------------------------- a still channel under heat

  /** What the freeze watch saw in the passes among events j..k-1. */
  function StepsSeen(ss: seq<Sys>, es: seq<Event>, j: nat, k: nat): seq<StepIn>
    requires |ss| == |es| + 1 && j <= k <= |es|
    decreases k - j
  {
    if j == k then []
    else (if es[j].ControlPass? then [ss[j + 1].note.seen.step] else []) + StepsSeen(ss, es, j + 1, k)
  }

  predicate NoPass(es: seq<Event>, a: nat, b: nat) { b <= |es| && forall m :: a <= m < b ==> !es[m].ControlPass? }

  /** Two passes with none in between. */
  predicate Neighbours(es: seq<Event>, a: nat, b: nat)
  {
    a < b < |es| && es[a].ControlPass? && es[b].ControlPass? && NoPass(es, a + 1, b)
  }

  /** Passes of events j..k-1 come in time order, at most 1.5 s apart. */
  predicate Paced(es: seq<Event>, j: nat, k: nat)
  {
    forall a: nat, b: nat {:trigger Neighbours(es, a, b)} :: j <= a < b < k && Neighbours(es, a, b) ==>
      0 < es[b].i.acquiredUs - es[a].i.acquiredUs <= 1_500_000
  }

  /** The SSR is on from state j to state k, and every pass in between reads the same code on the channel. */
  predicate HeatedStill(ss: seq<Sys>, es: seq<Event>, j: nat, k: nat, ch: bool, raw: int)
    requires |ss| == |es| + 1
  {
    && j <= k <= |es|
    && (forall m :: j <= m <= k ==> ss[m].p.ssr)
    && (forall m :: j <= m < k && es[m].ControlPass? ==> RawOf(SampleOf(es[m].i), ch) == raw)
  }

  lemma HeatedStep(ss: seq<Sys>, es: seq<Event>, m: nat, ch: bool, raw: int)
    requires Run(ss, es) && m < |es| && ss[m].p.ssr && ss[m + 1].p.ssr
    requires es[m].ControlPass? && RawOf(SampleOf(es[m].i), ch) == raw
    ensures var n := ss[m + 1].note.seen;
            && Heating(n.step, ch, raw) && !n.idle && n.step.nowUs == es[m].i.acquiredUs
            && SameEvidence(ss[m + 1].c.watch, Stepped(ss[m].c.watch, n.step).0)
            && n.health == Stepped(ss[m].c.watch, n.step).1 && !n.health.Frozen?
  {
    hide PowerUp, Step, Stepped, SameEvidence, Readable, SampleAccepted;
    assert Next(ss, es, m);
    InvariantsHold(ss, es, m);
    PassStep(ss[m], es[m].i);
  }

  /** The first pass among events j..k-1. */
  lemma {:induction false} FirstSeen(ss: seq<Sys>, es: seq<Event>, j: nat, k: nat) returns (b: nat)
    requires |ss| == |es| + 1 && j <= k <= |es| && StepsSeen(ss, es, j, k) != []
    ensures j <= b < k && es[b].ControlPass? && NoPass(es, j, b)
    ensures StepsSeen(ss, es, j, k)[0] == ss[b + 1].note.seen.step
    decreases k - j
  {
    if es[j].ControlPass? {
      b := j;
    } else {
      b := FirstSeen(ss, es, j + 1, k);
    }
  }

  lemma {:induction false} LastSeen(ss: seq<Sys>, es: seq<Event>, j: nat, k: nat)
    requires |ss| == |es| + 1 && j < k <= |es| && es[k - 1].ControlPass?
    ensures var ins := StepsSeen(ss, es, j, k); ins != [] && ins[|ins| - 1] == ss[k].note.seen.step
    decreases k - j
  {
    if j + 1 < k {
      LastSeen(ss, es, j + 1, k);
    }
  }

  lemma StretchGrows(i: StepIn, rest: seq<StepIn>, ch: bool, raw: int)
    requires Heating(i, ch, raw) && Stretch(rest, ch, raw)
    requires rest != [] ==> 0 < rest[0].nowUs - i.nowUs <= 1_500_000
    ensures Stretch([i] + rest, ch, raw)
  {
    hide Heating;
  }

  /** The next pass after pass j, if it is among events j+1..k-1, follows within 1.5 s. */
  lemma NextSeen(ss: seq<Sys>, es: seq<Event>, j: nat, k: nat, ch: bool, raw: int)
    requires Run(ss, es) && HeatedStill(ss, es, j, k, ch, raw) && Paced(es, j, k) && j < k && es[j].ControlPass?
    ensures var rest := StepsSeen(ss, es, j + 1, k);
            rest != [] ==> 0 < rest[0].nowUs - es[j].i.acquiredUs <= 1_500_000
  {
    hide PowerUp, Next, Heating, SameEvidence, Stepped;
    if StepsSeen(ss, es, j + 1, k) != [] {
      var b := FirstSeen(ss, es, j + 1, k);
      HeatedStep(ss, es, b, ch, raw);
      assert Neighbours(es, j, b);
    }
  }

  lemma {:induction false} StepsAreStretch(ss: seq<Sys>, es: seq<Event>, j: nat, k: nat, ch: bool, raw: int)
    requires Run(ss, es) && HeatedStill(ss, es, j, k, ch, raw) && Paced(es, j, k)
    ensures Stretch(StepsSeen(ss, es, j, k), ch, raw)
    decreases k - j
  {
    hide PowerUp, Next, Heating, Neighbours, SameEvidence, Stepped;
    if j < k {
      StepsAreStretch(ss, es, j + 1, k, ch, raw);
      var rest := StepsSeen(ss, es, j + 1, k);
      if es[j].ControlPass? {
        HeatedStep(ss, es, j, ch, raw);
        NextSeen(ss, es, j, k, ch, raw);
        StretchGrows(ss[j + 1].note.seen.step, rest, ch, raw);
      } else {
        assert StepsSeen(ss, es, j, k) == rest;
      }
    }
  }

  /** A pending suspicion of the channel's present code. */
  predicate Suspected(w: Watch, ch: bool, raw: int)
  {
    w.Of(ch).suspect && w.Of(ch).suspectRaw == raw && w.warningUs != 0
  }

  lemma WarningIsPending(w: Watch, i: StepIn)
    ensures Stepped(w, i).1.Warning? ==> Stepped(w, i).0.warningUs != 0
  {
  }

  /** One pass under heat, seen from a watch that differs only in the acquisition number. */
  lemma HeatedDetection(ss: seq<Sys>, es: seq<Event>, m: nat, w: Watch, ch: bool, raw: int)
    requires Run(ss, es) && m < |es| && ss[m].p.ssr && ss[m + 1].p.ssr
    requires es[m].ControlPass? && RawOf(SampleOf(es[m].i), ch) == raw && SameEvidence(ss[m].c.watch, w)
    ensures var (after, health) := Stepped(w, ss[m + 1].note.seen.step);
            && SameEvidence(ss[m + 1].c.watch, after)
            && (Detected(after, health, ch, raw) ==> Suspected(ss[m + 1].c.watch, ch, raw))
  {
    hide PowerUp, Next, Heating, Stepped;
    var i := ss[m + 1].note.seen.step;
    HeatedStep(ss, es, m, ch, raw);
    StepIgnoresNumber(ss[m].c.watch, w, i, false);
    WarningIsPending(w, i);
  }

  lemma {:induction false} DetectedInRun(ss: seq<Sys>, es: seq<Event>, j: nat, k: nat, w: Watch, ch: bool, raw: int)
    returns (m: nat)
    requires Run(ss, es) && HeatedStill(ss, es, j, k, ch, raw) && SameEvidence(ss[j].c.watch, w)
    requires DetectedWithin(w, StepsSeen(ss, es, j, k), ch, raw)
    ensures j < m <= k && es[m - 1].ControlPass? && Suspected(ss[m].c.watch, ch, raw)
    decreases k - j
  {
    hide PowerUp, Next, Heating, Stepped, SameEvidence, Detected, Suspected;
    assert j < k;
    var rest := StepsSeen(ss, es, j + 1, k);
    assert ss[j + 1].p.ssr;
    if es[j].ControlPass? {
      var i := ss[j + 1].note.seen.step;
      HeatedDetection(ss, es, j, w, ch, raw);
      assert StepsSeen(ss, es, j, k) == [i] + rest && ([i] + rest)[1..] == rest;
      StepUnfolds(w, i);
      var (after, health) := Stepped(w, i);
      if Detected(after, health, ch, raw) {
        m := j + 1;
      } else {
        m := DetectedInRun(ss, es, j + 1, k, after, ch, raw);
      }
    } else {
      OtherKeepsWatch(ss, es, j);
      assert StepsSeen(ss, es, j, k) == rest;
      m := DetectedInRun(ss, es, j + 1, k, w, ch, raw);
    }
  }

  lemma StepUnfolds(w: Watch, i: StepIn)
    ensures Stepped(w, i) == AfterStep(w, i.sample, i.isNew, i.job, i.ssrOn, i.nowUs)
  {
  }

  lemma OtherKeepsWatch(ss: seq<Sys>, es: seq<Event>, m: nat)
    requires Run(ss, es) && m < |es| && !es[m].ControlPass? && ss[m + 1].p.ssr
    ensures ss[m + 1].c == ss[m].c
  {
    hide PowerUp, Step;
    assert Next(ss, es, m);
    if es[m].PowerLoss? {
      BootStaysDead(ss[m], es[m].b);
      assert false;
    }
    OthersKeepFan(ss[m], es[m]);
  }

  /**
   * Heat over a still channel raises suspicion: in any run, if the SSR is on throughout, with passes at most 1.5 s
   * apart, and a channel reads the same code in all of them over 121.5 s or more, then some pass of that stretch left
   * that channel suspect with a warning pending, whatever the other channel did and whatever came before.
   */
  lemma StillChannelIsSuspected(ss: seq<Sys>, es: seq<Event>, j: nat, k: nat, ch: bool, raw: int) returns (m: nat)
    requires Run(ss, es) && ClockRuns(es) && HeatedStill(ss, es, j, k, ch, raw) && Paced(es, j, k)
    requires j < k && es[j].ControlPass? && es[k - 1].ControlPass? && es[j].i.acquiredUs > 0
    requires es[k - 1].i.acquiredUs - es[j].i.acquiredUs >= 121_500_000
    ensures j < m <= k && es[m - 1].ControlPass? && Suspected(ss[m].c.watch, ch, raw)
  {
    hide PowerUp, Next, Stretch, DetectedWithin, Suspected, Causal, Stepped, SameEvidence, Paced;
    var ins := StepsSeen(ss, es, j, k);
    StepsAreStretch(ss, es, j, k, ch, raw);
    StretchEnds(ss, es, j, k, ch, raw);
    BeforeFirst(es, j);
    CausalInRun(ss, es, j, es[j].i.acquiredUs);
    StuckChannelIsDetected(ss[j].c.watch, ins, ch, raw);
    SelfEvident(ss[j].c.watch);
    m := DetectedInRun(ss, es, j, k, ss[j].c.watch, ch, raw);
  }

  lemma StretchEnds(ss: seq<Sys>, es: seq<Event>, j: nat, k: nat, ch: bool, raw: int)
    requires Run(ss, es) && HeatedStill(ss, es, j, k, ch, raw) && j < k
    requires es[j].ControlPass? && es[k - 1].ControlPass?
    ensures var ins := StepsSeen(ss, es, j, k);
            && ins != [] && ins[0].nowUs == es[j].i.acquiredUs && ins[|ins| - 1].nowUs == es[k - 1].i.acquiredUs
  {
    hide PowerUp, Next, Heating, Stepped, SameEvidence;
    LastSeen(ss, es, j, k);
    HeatedStep(ss, es, j, ch, raw);
    HeatedStep(ss, es, k - 1, ch, raw);
  }

  lemma BeforeFirst(es: seq<Event>, j: nat)
    requires ClockRuns(es) && j < |es| && es[j].ControlPass?
    ensures PassedBy(es, j, es[j].i.acquiredUs)
  {
  }

  lemma SelfEvident(w: Watch)
    ensures SameEvidence(w, w)
  {
  }

  // ---------------------------------------------------------------- the fixed deadline

  /**
   * From state j to state k power stays on, no pass finds work off, and passes come in time order from `since` on,
   * each readable fresh sample repeating the code on the channel.
   */
  predicate StillWorking(ss: seq<Sys>, es: seq<Event>, j: nat, k: nat, ch: bool, raw: int, since: int)
    requires |ss| == |es| + 1
  {
    && j <= k && SameBoot(es, j, k)
    && (forall m :: j <= m < k && es[m].ControlPass? ==>
          var n := ss[m + 1].note.seen;
          && !n.idle && since <= es[m].i.acquiredUs
          && (n.step.isNew && Readable(n.step.sample) ==> RawOf(n.step.sample, ch) == raw))
    && (forall a: nat, b: nat :: j <= a < b < k && es[a].ControlPass? && es[b].ControlPass? ==>
          es[a].i.acquiredUs <= es[b].i.acquiredUs)
  }

  /**
   * The warning of the channel is pending, and FROZEN is in force only if a pass so far came 300 s or more after it.
   */
  predicate Ticking(es: seq<Event>, w: Watch, j: nat, k: nat, ch: bool, raw: int, since: int)
    requires k <= |es|
  {
    && Pending(w, ch, raw, since)
    && (w.frozen ==>
          exists a: nat :: j <= a < k && es[a].ControlPass? && es[a].i.acquiredUs - since >= WARNING_GRACE_US)
  }

  /** One step against a pending warning, by the deadline theorem for a single observation. */
  lemma DeadlineStep(w: Watch, v: Watch, i: StepIn, ch: bool, raw: int, since: int)
    requires Pending(w, ch, raw, since) && since <= i.nowUs && SameEvidence(v, Stepped(w, i).0)
    requires i.isNew && Readable(i.sample) ==> RawOf(i.sample, ch) == raw
    requires w.frozen ==> i.nowUs - since >= WARNING_GRACE_US
    ensures Pending(v, ch, raw, since) && (v.frozen ==> w.frozen || i.nowUs - since >= WARNING_GRACE_US)
    ensures i.isNew && Readable(i.sample) ==>
              Stepped(w, i).1 == if i.nowUs - since >= WARNING_GRACE_US then Frozen else Warning
  {
    DeadlineIsFixed(w, [i], ch, raw, since);
  }

  lemma DeadlinePass(ss: seq<Sys>, es: seq<Event>, j: nat, k: nat, ch: bool, raw: int, since: int)
    requires Steps(ss, es) && k < |es| && StillWorking(ss, es, j, k + 1, ch, raw, since) && es[k].ControlPass?
    requires j <= k && Ticking(es, ss[k].c.watch, j, k, ch, raw, since)
    ensures Ticking(es, ss[k + 1].c.watch, j, k + 1, ch, raw, since)
    ensures var n := ss[k + 1].note.seen;
            n.step.isNew && Readable(n.step.sample) ==>
              n.health == if es[k].i.acquiredUs - since >= WARNING_GRACE_US then Frozen else Warning
    ensures var n := ss[k + 1].note.seen;
            && (ss[k + 1].p.ssr ==> n.step.isNew && Readable(n.step.sample) && !n.health.Frozen?)
            && (n.health.Frozen? ==> ss[k + 1].p.latch.latched)
  {
    hide Step, Stepped, SameEvidence, Readable, SampleAccepted, Pending;
    assert Next(ss, es, k);
    PassStep(ss[k], es[k].i);
    var n := ss[k + 1].note.seen;
    assert !n.idle && since <= es[k].i.acquiredUs;
    DeadlineStep(ss[k].c.watch, ss[k + 1].c.watch, n.step, ch, raw, since);
    if ss[k].c.watch.frozen {
      var a: nat :| j <= a < k && es[a].ControlPass? && es[a].i.acquiredUs - since >= WARNING_GRACE_US;
      assert es[a].i.acquiredUs <= es[k].i.acquiredUs;
    }
  }

  lemma {:induction false} StaysPending(ss: seq<Sys>, es: seq<Event>, j: nat, k: nat, ch: bool, raw: int, since: int)
    requires Steps(ss, es) && StillWorking(ss, es, j, k, ch, raw, since)
    requires Pending(ss[j].c.watch, ch, raw, since) && !ss[j].c.watch.frozen
    ensures Ticking(es, ss[k].c.watch, j, k, ch, raw, since)
    decreases k
  {
    hide Step, Pending, Readable;
    if j < k {
      StaysPending(ss, es, j, k - 1, ch, raw, since);
      if es[k - 1].ControlPass? {
        DeadlinePass(ss, es, j, k - 1, ch, raw, since);
      } else {
        assert Next(ss, es, k - 1);
        OthersKeepFan(ss[k - 1], es[k - 1]);
      }
    }
  }

  /**
   * The deadline is fixed: once a channel is suspect with a warning raised at `since`, and as long as work stays on and
   * that channel never moves, every pass with a fresh readable sample reports FROZEN exactly if it comes 300 s or more
   * after `since`, whatever pauses, SSR off-time, bad samples or movement of the other channel lie between. FROZEN
   * latches in the same pass, and from 300 s on no pass leaves the SSR on.
   */
  lemma DeadlineHolds(ss: seq<Sys>, es: seq<Event>, j: nat, k: nat, ch: bool, raw: int, since: int)
    requires Steps(ss, es) && j <= k < |es| && es[k].ControlPass? && StillWorking(ss, es, j, k + 1, ch, raw, since)
    requires Pending(ss[j].c.watch, ch, raw, since) && !ss[j].c.watch.frozen
    ensures var n := ss[k + 1].note.seen;
            n.step.isNew && Readable(n.step.sample) ==>
              && n.health == (if es[k].i.acquiredUs - since >= WARNING_GRACE_US then Frozen else Warning)
              && (n.health.Frozen? ==> ss[k + 1].p.latch.latched)
    ensures es[k].i.acquiredUs - since >= WARNING_GRACE_US ==> !ss[k + 1].p.ssr
  {
    hide Step, Pending, Readable;
    assert StillWorking(ss, es, j, k, ch, raw, since);
    StaysPending(ss, es, j, k, ch, raw, since);
    DeadlinePass(ss, es, j, k, ch, raw, since);
  }
}
