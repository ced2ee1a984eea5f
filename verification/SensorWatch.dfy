/** main/sensor_watch.h: freshness of an acquisition and the two-channel freeze detector. Times in microseconds. */
module SensorWatch {
  import opened Common
  import opened PlantState

  const SAMPLE_MAX_AGE_US := 1_500_000
  const STILL_WINDOW_US := 60_000_000
  const WARNING_GRACE_US := 300_000_000
  const MIN_OUTPUT_US := 30_000_000
  const RAW_SHORT_MAX := 0x14
  const RAW_OPEN_MIN := 0xFFE

  datatype Sample = Sample(
    sequence: nat,
    startedUs: int,
    completedUs: int,
    chamber: Temp,
    ptc: Temp,
    chamberInstant: Temp,
    ptcInstant: Temp,
    chamberRaw: int,
    ptcRaw: int,
    chamberStatus: SensorStatus,
    ptcStatus: SensorStatus)

  datatype Health = Healthy | Stale | Invalid | Frozen | Warning

  /** Evidence of one channel; `suspect` is its bit of the suspect mask. */
  datatype Channel = Channel(raw: int, suspectRaw: int, stillUs: int, onUs: int, suspect: bool)

  /** `chamber` is channel 0, `ptc` is channel 1. */
  datatype Watch = Watch(
    sequence: nat,
    chamber: Channel,
    ptc: Channel,
    previousUs: int,
    warningUs: int,
    tracking: bool,
    frozen: bool)
  {
    function Of(ptcChannel: bool): Channel { if ptcChannel then ptc else chamber }
  }

  // ---------------------------------------------------------------- specification functions

  const NO_EVIDENCE := Watch(0, Channel(0, 0, 0, 0, false), Channel(0, 0, 0, 0, false), 0, 0, false, false)

  predicate IsFresh(w: Watch, s: Sample, attemptUs: int, nowUs: int)
  {
    && s.sequence != 0 && s.sequence != w.sequence
    && attemptUs <= s.startedUs <= s.completedUs <= nowUs
    && nowUs - s.startedUs <= SAMPLE_MAX_AGE_US
  }

  predicate RawInRange(raw: int) { RAW_SHORT_MAX < raw < RAW_OPEN_MIN }

  predicate Readable(s: Sample)
  {
    && s.chamberStatus.SensorOk? && s.ptcStatus.SensorOk?
    && s.chamberInstant.Deg? && s.ptcInstant.Deg?
    && RawInRange(s.chamberRaw) && RawInRange(s.ptcRaw)
  }

  function RawOf(s: Sample, ptcChannel: bool): int { if ptcChannel then s.ptcRaw else s.chamberRaw }

  /** Only activity of the suspect channel itself removes its suspicion. */
  function Exonerate(c: Channel, raw: int): Channel
  {
    c.(suspect := c.suspect && raw == c.suspectRaw)
  }

  /** Evidence of one channel after one observation. */
  function Observe(c: Channel, raw: int, collecting: bool, ssrOn: bool, dt: int, nowUs: int): Channel
  {
    if !collecting || raw != c.raw then c.(raw := raw, stillUs := nowUs, onUs := 0)
    else
      var on := if ssrOn && c.onUs < MIN_OUTPUT_US then c.onUs + dt else c.onUs;
      if nowUs - c.stillUs >= STILL_WINDOW_US && on >= MIN_OUTPUT_US && !c.suspect
      then c.(onUs := on, suspect := true, suspectRaw := raw)
      else c.(onUs := on)
  }

  /** The suspicion part of a step: the watch after exoneration, and whether FROZEN is reported at once. */
  function Judge(w: Watch, s: Sample, nowUs: int): (Watch, bool)
  {
    if w.frozen || w.warningUs != 0 then
      var c := Exonerate(w.chamber, s.chamberRaw);
      var p := Exonerate(w.ptc, s.ptcRaw);
      if !c.suspect && !p.suspect then
        (w.(chamber := c, ptc := p, frozen := false, warningUs := 0, tracking := false), false)
      else if w.frozen || nowUs < w.warningUs || nowUs - w.warningUs >= WARNING_GRACE_US then
        (w.(chamber := c, ptc := p, frozen := true), true)
      else (w.(chamber := c, ptc := p), false)
    else
      (w.(chamber := w.chamber.(suspect := false), ptc := w.ptc.(suspect := false)), false)
  }

  /** The evidence part of a step. */
  function Collect(w: Watch, s: Sample, job: bool, ssrOn: bool, nowUs: int): Watch
  {
    var dt := nowUs - w.previousUs;
    var collecting := job && w.tracking && 0 < dt <= SAMPLE_MAX_AGE_US;
    var c := Observe(w.chamber, s.chamberRaw, collecting, ssrOn, dt, nowUs);
    var p := Observe(w.ptc, s.ptcRaw, collecting, ssrOn, dt, nowUs);
    var newlySuspect := (c.suspect && !w.chamber.suspect) || (p.suspect && !w.ptc.suspect);
    w.(chamber := c, ptc := p, tracking := job, previousUs := nowUs,
       warningUs := if newlySuspect && w.warningUs == 0 then nowUs else w.warningUs)
  }

  function AfterStep(w: Watch, s: Sample, isNew: bool, job: bool, ssrOn: bool, nowUs: int): (Watch, Health)
  {
    if !isNew then (w.(tracking := false), Stale)
    else if !Readable(s) then (w.(tracking := false), Invalid)
    else
      var (judged, frozen) := Judge(w, s, nowUs);
      if frozen then (judged, Frozen)
      else
        var after := Collect(judged, s, job, ssrOn, nowUs);
        (after, if after.warningUs != 0 then Warning else Healthy)
  }

  /** control_task cancels an unconfirmed warning once the job is off (main/safety.c:1179-1182). */
  function AfterOff(w: Watch): Watch
  {
    if w.frozen then w else w.(warningUs := 0, tracking := false)
  }

  // ---------------------------------------------------------------- the module itself

  class FreezeWatch {
    var sequence: nat
    var raw: array<int>
    var suspectRaw: array<int>
    var stillUs: array<int>
    var onUs: array<int>
    var suspect: array<bool>
    var previousUs: int
    var warningUs: int
    var tracking: bool
    var frozen: bool

    ghost predicate Valid()
      reads this
    {
      && raw.Length == suspectRaw.Length == stillUs.Length == onUs.Length == suspect.Length == 2
      && raw != suspectRaw && raw != stillUs && raw != onUs
      && suspectRaw != stillUs && suspectRaw != onUs && stillUs != onUs
    }

    ghost function ChannelView(ch: int): Channel
      requires Valid() && 0 <= ch < 2
      reads this, raw, suspectRaw, stillUs, onUs, suspect
    {
      Channel(raw[ch], suspectRaw[ch], stillUs[ch], onUs[ch], suspect[ch])
    }

    ghost function View(): Watch
      requires Valid()
      reads this, raw, suspectRaw, stillUs, onUs, suspect
    {
      Watch(sequence, ChannelView(0), ChannelView(1), previousUs, warningUs, tracking, frozen)
    }

    constructor ()
      ensures Valid() && View() == NO_EVIDENCE
      ensures fresh(raw) && fresh(suspectRaw) && fresh(stillUs) && fresh(onUs) && fresh(suspect)
    {
      raw := new int[2](_ => 0);
      suspectRaw := new int[2](_ => 0);
      stillUs := new int[2](_ => 0);
      onUs := new int[2](_ => 0);
      suspect := new bool[2](_ => false);
      sequence, previousUs, warningUs, tracking, frozen := 0, 0, 0, false, false;
    }

    method SampleFresh(s: Sample, attemptUs: int, nowUs: int) returns (ok: bool)
      requires Valid()
      modifies this`sequence
      ensures Valid() && ok == IsFresh(old(View()), s, attemptUs, nowUs)
      ensures View() == if ok then old(View()).(sequence := s.sequence) else old(View())
    {
      ok := s.sequence != 0 && s.sequence != sequence && s.startedUs >= attemptUs &&
            s.completedUs >= s.startedUs && nowUs >= s.completedUs && nowUs - s.startedUs <= SAMPLE_MAX_AGE_US;
      if ok {
        sequence := s.sequence;
      }
    }

    /** Loop body of the exoneration pass. */
    method ExonerateChannel(ch: int, code: int)
      requires Valid() && 0 <= ch < 2
      modifies suspect
      ensures ChannelView(ch) == Exonerate(old(ChannelView(ch)), code)
      ensures suspect[1 - ch] == old(suspect[1 - ch])
    {
      if code != suspectRaw[ch] {
        suspect[ch] := false;
      }
    }

    /** Loop body of the evidence pass. */
    method ObserveChannel(ch: int, code: int, collecting: bool, ssrOn: bool, dt: int, nowUs: int)
      requires Valid() && 0 <= ch < 2
      modifies this`warningUs, raw, suspectRaw, stillUs, onUs, suspect
      ensures ChannelView(ch) == Observe(old(ChannelView(ch)), code, collecting, ssrOn, dt, nowUs)
      ensures ChannelView(1 - ch) == old(ChannelView(1 - ch))
      ensures warningUs == if ChannelView(ch).suspect && !old(ChannelView(ch)).suspect && old(warningUs) == 0
                           then nowUs else old(warningUs)
    {
      if !collecting || code != raw[ch] {
        raw[ch] := code;
        stillUs[ch] := nowUs;
        onUs[ch] := 0;
      } else {
        if ssrOn && onUs[ch] < MIN_OUTPUT_US {
          onUs[ch] := onUs[ch] + dt;
        }
        if nowUs - stillUs[ch] >= STILL_WINDOW_US && onUs[ch] >= MIN_OUTPUT_US && !suspect[ch] {
          suspect[ch] := true;
          suspectRaw[ch] := code;
          if warningUs == 0 {
            warningUs := nowUs;
          }
        }
      }
    }

    /** The suspicion part of a step; true when FROZEN is reported. */
    method JudgeStep(s: Sample, nowUs: int) returns (report: bool)
      requires Valid()
      modifies this`tracking, this`frozen, this`warningUs, suspect
      ensures (View(), report) == Judge(old(View()), s, nowUs)
    {
      if frozen || warningUs != 0 {
        for ch := 0 to 2
          invariant ChannelView(0) == if ch > 0 then Exonerate(old(ChannelView(0)), s.chamberRaw)
                                      else old(ChannelView(0))
          invariant ChannelView(1) == if ch > 1 then Exonerate(old(ChannelView(1)), s.ptcRaw) else old(ChannelView(1))
          modifies suspect
        {
          ExonerateChannel(ch, if ch == 0 then s.chamberRaw else s.ptcRaw);
        }
        if !suspect[0] && !suspect[1] {
          frozen := false;
          warningUs := 0;
          tracking := false;
        } else if frozen || nowUs < warningUs || nowUs - warningUs >= WARNING_GRACE_US {
          frozen := true;
          return true;
        }
      } else {
        suspect[0] := false;
        suspect[1] := false;
      }
      return false;
    }

    /** The evidence part of a step. */
    method CollectStep(s: Sample, job: bool, ssrOn: bool, nowUs: int)
      requires Valid()
      modifies this`tracking, this`previousUs, this`warningUs, raw, suspectRaw, stillUs, onUs, suspect
      ensures View() == Collect(old(View()), s, job, ssrOn, nowUs)
    {
      var dt := nowUs - previousUs;
      var collecting := job && tracking && dt > 0 && dt <= SAMPLE_MAX_AGE_US;
      ghost var c0, p0, warn0 := ChannelView(0), ChannelView(1), warningUs;
      for ch := 0 to 2
        invariant ChannelView(0) ==
                  if ch > 0 then Observe(c0, s.chamberRaw, collecting, ssrOn, dt, nowUs) else c0
        invariant ChannelView(1) ==
                  if ch > 1 then Observe(p0, s.ptcRaw, collecting, ssrOn, dt, nowUs) else p0
        invariant warningUs == if warn0 == 0 && ((ChannelView(0).suspect && !c0.suspect) ||
                                                 (ChannelView(1).suspect && !p0.suspect))
                               then nowUs else warn0
      {
        ObserveChannel(ch, if ch == 0 then s.chamberRaw else s.ptcRaw, collecting, ssrOn, dt, nowUs);
      }
      tracking := job;
      previousUs := nowUs;
    }

    method Step(s: Sample, isNew: bool, job: bool, ssrOn: bool, nowUs: int) returns (health: Health)
      requires Valid()
      modifies this`tracking, this`frozen, this`warningUs, this`previousUs, raw, suspectRaw, stillUs, onUs, suspect
      ensures (View(), health) == AfterStep(old(View()), s, isNew, job, ssrOn, nowUs)
    {
      if !isNew {
        tracking := false;
        return Stale;
      }
      if !s.chamberStatus.SensorOk? || !s.ptcStatus.SensorOk? || s.chamberInstant.Bad? || s.ptcInstant.Bad? ||
         s.chamberRaw <= RAW_SHORT_MAX || s.chamberRaw >= RAW_OPEN_MIN ||
         s.ptcRaw <= RAW_SHORT_MAX || s.ptcRaw >= RAW_OPEN_MIN {
        tracking := false;
        return Invalid;
      }
      var report := JudgeStep(s, nowUs);
      if report {
        return Frozen;
      }
      CollectStep(s, job, ssrOn, nowUs);
      return if warningUs != 0 then Warning else Healthy;
    }
  }

  // ---------------------------------------------------------------- guarantees over whole runs

  datatype StepIn = StepIn(sample: Sample, isNew: bool, job: bool, ssrOn: bool, nowUs: int)

  function WatchAfter(w: Watch, ins: seq<StepIn>): Watch
    decreases |ins|
  {
    if ins == [] then w
    else
      var i := ins[0];
      WatchAfter(AfterStep(w, i.sample, i.isNew, i.job, i.ssrOn, i.nowUs).0, ins[1..])
  }

  /** Readings of a run: one health verdict per step. */
  function Verdicts(w: Watch, ins: seq<StepIn>): (h: seq<Health>)
    ensures |h| == |ins|
    decreases |ins|
  {
    if ins == [] then []
    else
      var i := ins[0];
      var (after, health) := AfterStep(w, i.sample, i.isNew, i.job, i.ssrOn, i.nowUs);
      [health] + Verdicts(after, ins[1..])
  }

  /** Evidence never lies in the future; it holds initially and is kept by every operation. */
  predicate Causal(w: Watch, nowUs: int)
  {
    && (w.tracking ==> w.chamber.stillUs <= w.previousUs <= nowUs && w.ptc.stillUs <= w.previousUs)
    && w.chamber.onUs >= 0 && w.ptc.onUs >= 0
  }

  /** Every watch is causal: each step and each pass without a job keeps it so. */
  lemma CausalKept(w: Watch, i: StepIn)
    requires Causal(w, i.nowUs)
    ensures Causal(AfterStep(w, i.sample, i.isNew, i.job, i.ssrOn, i.nowUs).0, i.nowUs)
    ensures Causal(AfterOff(w), i.nowUs)
  {
  }

  /** A fresh readable step of a running job with the SSR applied, where the given channel still reads `raw`. */
  predicate Heating(i: StepIn, ch: bool, raw: int)
  {
    i.isNew && Readable(i.sample) && i.job && i.ssrOn && RawOf(i.sample, ch) == raw
  }

  /** Observations of one heating stretch: time advances by at most 1.5 s per step. */
  predicate Stretch(ins: seq<StepIn>, ch: bool, raw: int)
  {
    && (forall k :: 0 <= k < |ins| ==> Heating(ins[k], ch, raw))
    && (forall k :: 0 < k < |ins| ==> 0 < ins[k].nowUs - ins[k - 1].nowUs <= 1_500_000)
  }

  predicate Detected(w: Watch, health: Health, ch: bool, raw: int)
  {
    health.Frozen? || (w.Of(ch).suspect && w.Of(ch).suspectRaw == raw && health.Warning?)
  }

  predicate DetectedWithin(w: Watch, ins: seq<StepIn>, ch: bool, raw: int)
    decreases |ins|
  {
    && ins != []
    && var i := ins[0];
    var (after, health) := AfterStep(w, i.sample, i.isNew, i.job, i.ssrOn, i.nowUs);
    Detected(after, health, ch, raw) || DetectedWithin(after, ins[1..], ch, raw)
  }

  /** The channel has been still, with the SSR counted, at least since `since`. */
  predicate StillSince(w: Watch, ch: bool, raw: int, since: int)
  {
    var c := w.Of(ch);
    && w.tracking && c.raw == raw && c.stillUs <= since <= w.previousUs
    && c.onUs >= Min(MIN_OUTPUT_US, w.previousUs - since)
    && !(c.suspect && c.suspectRaw == raw && w.warningUs != 0)
  }

  /** As above with no warning pending, and the other channel's window not older: nothing can reset this one now. */
  predicate CleanSince(w: Watch, ch: bool, raw: int, since: int)
  {
    && StillSince(w, ch, raw, since)
    && w.Of(ch).stillUs == since <= w.Of(!ch).stillUs
    && w.warningUs == 0 && !w.frozen
  }

  /** One heating step: the channel is detected, or its window goes on, or both windows restart clean. */
  lemma HeatingStep(w: Watch, i: StepIn, ch: bool, raw: int, since: int)
    requires i.nowUs > 0 && StillSince(w, ch, raw, since) && Heating(i, ch, raw)
    requires 0 < i.nowUs - w.previousUs <= SAMPLE_MAX_AGE_US
    ensures var (after, health) := AfterStep(w, i.sample, i.isNew, i.job, i.ssrOn, i.nowUs);
            || Detected(after, health, ch, raw)
            || (StillSince(after, ch, raw, since) && after.previousUs == i.nowUs && i.nowUs - since < STILL_WINDOW_US)
            || (CleanSince(after, ch, raw, i.nowUs) && after.previousUs == i.nowUs && !CleanSince(w, ch, raw, since))
    ensures var (after, health) := AfterStep(w, i.sample, i.isNew, i.job, i.ssrOn, i.nowUs);
            CleanSince(w, ch, raw, since) && !Detected(after, health, ch, raw) ==> CleanSince(after, ch, raw, since)
  {
  }

  lemma {:induction false} CleanIsDetected(w: Watch, ins: seq<StepIn>, ch: bool, raw: int, since: int)
    requires CleanSince(w, ch, raw, since) && Stretch(ins, ch, raw) && ins != []
    requires 0 < w.previousUs && 0 < ins[0].nowUs - w.previousUs <= SAMPLE_MAX_AGE_US
    requires ins[|ins| - 1].nowUs - since >= STILL_WINDOW_US
    ensures DetectedWithin(w, ins, ch, raw)
    decreases |ins|
  {
    hide AfterStep, Readable;
    HeatingStep(w, ins[0], ch, raw, since);
    var i := ins[0];
    var (after, health) := AfterStep(w, i.sample, i.isNew, i.job, i.ssrOn, i.nowUs);
    if !Detected(after, health, ch, raw) {
      CleanIsDetected(after, ins[1..], ch, raw, since);
    }
  }

  lemma {:induction false} StillIsDetected(w: Watch, ins: seq<StepIn>, ch: bool, raw: int, since: int)
    requires StillSince(w, ch, raw, since) && Stretch(ins, ch, raw) && ins != []
    requires 0 < w.previousUs && 0 < ins[0].nowUs - w.previousUs <= SAMPLE_MAX_AGE_US
    requires w.previousUs - since < STILL_WINDOW_US
    requires ins[|ins| - 1].nowUs - since >= 2 * STILL_WINDOW_US + SAMPLE_MAX_AGE_US
    ensures DetectedWithin(w, ins, ch, raw)
    decreases |ins|
  {
    hide AfterStep, Readable;
    HeatingStep(w, ins[0], ch, raw, since);
    var i := ins[0];
    var (after, health) := AfterStep(w, i.sample, i.isNew, i.job, i.ssrOn, i.nowUs);
    if !Detected(after, health, ch, raw) {
      if i.nowUs - since < STILL_WINDOW_US && StillSince(after, ch, raw, since) {
        StillIsDetected(after, ins[1..], ch, raw, since);
      } else {
        CleanIsDetected(after, ins[1..], ch, raw, i.nowUs);
      }
    }
  }

  /**
   * Detection bound. Whatever the watch remembers and whatever the other channel does, a channel whose raw code
   * never changes during 121.5 s of applied heating is suspect, or FROZEN has been reported; with steps at most
   * 1.5 s apart that is no later than 123 s.
   */
  lemma StuckChannelIsDetected(w: Watch, ins: seq<StepIn>, ch: bool, raw: int)
    requires ins != [] && ins[0].nowUs > 0 && Causal(w, ins[0].nowUs) && Stretch(ins, ch, raw)
    requires ins[|ins| - 1].nowUs - ins[0].nowUs >= 121_500_000
    ensures DetectedWithin(w, ins, ch, raw)
  {
    var i := ins[0];
    var (after, health) := AfterStep(w, i.sample, i.isNew, i.job, i.ssrOn, i.nowUs);
    if !Detected(after, health, ch, raw) {
      assert StillSince(after, ch, raw, i.nowUs);
      StillIsDetected(after, ins[1..], ch, raw, i.nowUs);
    }
  }

  /** A pending suspicion of one channel with the warning raised at `since`. */
  predicate Pending(w: Watch, ch: bool, raw: int, since: int)
  {
    w.Of(ch).suspect && w.Of(ch).suspectRaw == raw && w.warningUs == since && since != 0
  }

  /** Inputs of any kind in time order, in which every readable sample of the channel repeats the suspect code. */
  predicate NeverMoves(ins: seq<StepIn>, ch: bool, raw: int, since: int)
  {
    && (forall k :: 0 <= k < |ins| && ins[k].isNew && Readable(ins[k].sample) ==> RawOf(ins[k].sample, ch) == raw)
    && (forall k :: 0 <= k < |ins| ==> since <= ins[k].nowUs)
    && (forall k :: 0 < k < |ins| ==> ins[k - 1].nowUs <= ins[k].nowUs)
  }

  /**
   * Fixed deadline. While the job is not switched off, nothing moves the deadline: pauses, stale or invalid samples,
   * SSR off-time and the other channel are irrelevant, and a fresh readable step reports FROZEN exactly from
   * 300 s after the first warning on.
   */
  lemma {:induction false} DeadlineIsFixed(w: Watch, ins: seq<StepIn>, ch: bool, raw: int, since: int)
    requires Pending(w, ch, raw, since) && NeverMoves(ins, ch, raw, since)
    requires w.frozen ==> forall k :: 0 <= k < |ins| ==> ins[k].nowUs - since >= WARNING_GRACE_US
    ensures Pending(WatchAfter(w, ins), ch, raw, since)
    ensures forall k :: 0 <= k < |ins| && ins[k].isNew && Readable(ins[k].sample) ==>
              Verdicts(w, ins)[k] == if ins[k].nowUs - since >= WARNING_GRACE_US then Frozen else Warning
    decreases |ins|
  {
    if ins != [] {
      var i := ins[0];
      var (after, health) := AfterStep(w, i.sample, i.isNew, i.job, i.ssrOn, i.nowUs);
      assert Pending(after, ch, raw, since);
      LaterAreLater(ins);
      DeadlineIsFixed(after, ins[1..], ch, raw, since);
    }
  }

  lemma {:induction false} LaterAreLater(ins: seq<StepIn>)
    requires ins != [] && forall k :: 0 < k < |ins| ==> ins[k - 1].nowUs <= ins[k].nowUs
    ensures forall k :: 0 <= k < |ins| ==> ins[0].nowUs <= ins[k].nowUs
    decreases |ins|
  {
    if |ins| > 1 {
      LaterAreLater(ins[1..]);
      forall k | 0 <= k < |ins| ensures ins[0].nowUs <= ins[k].nowUs {
        if k > 0 {
          assert ins[k] == ins[1..][k - 1];
        }
      }
    }
  }

  /** A replayed, early, reordered or old acquisition is never fresh, and an accepted one is not accepted twice. */
  lemma FreshOnce(w: Watch, s: Sample, attemptUs: int, nowUs: int, laterAttemptUs: int, laterUs: int)
    ensures IsFresh(w, s, attemptUs, nowUs) ==> !IsFresh(w.(sequence := s.sequence), s, laterAttemptUs, laterUs)
    ensures IsFresh(w, s, attemptUs, nowUs) ==> nowUs - attemptUs >= 0 && nowUs - s.completedUs <= SAMPLE_MAX_AGE_US
  {
  }
}
