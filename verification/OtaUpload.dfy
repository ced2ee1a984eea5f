/**
 * main/ota_storage.c and the upload and boot-inactive handlers of main/api_server.c: the steps around the durable
 * "upload pending" marker of the inactive slot. Power may fail after any durable effect.
 */
module OtaUpload {
  import opened Common

  const BUFFER_SIZE := 1024

  type Byte = b: int | 0 <= b < 256

  /** The transfer hash, the bootloader's image check and the project name read from an image. */
  datatype World = World(sha: seq<Byte> -> int, valid: seq<Byte> -> bool, project: seq<Byte> -> string)

  /** What survives a power loss: the slot's marker, its contents, and whether the boot pointer selects it. */
  datatype Durable = Durable(marker: Option<int>, content: seq<Byte>, boots: bool)

  /** One return of the socket read, with how the flash write and the hash update of its bytes went. */
  datatype Receive =
    | Late
    | Silence
    | Closed
    | Chunk(bytes: seq<Byte>, written: bool, landed: seq<Byte>, hashed: bool)

  /** An upload request, and the outcome of everything outside this code that it runs into. */
  datatype Request = Request(
    digest: Option<int>,
    reserved: bool,
    otaEnabled: bool,
    slotSize: Option<nat>,
    length: int,
    mark: NvsWrite,
    begun: bool,
    resources: bool,
    input: seq<Receive>,
    finished: bool,
    erased: seq<Byte>,
    eraseOk: bool,
    ended: bool,
    described: bool,
    clear: NvsWrite,
    readable: bool,
    restore: NvsWrite,
    bootSet: bool)

  predicate Accepted(project: string)
  {
    project == "SnapHeater_U1" || project == "dragonbreath" || project == "panda_breath"
  }

  // ---------------------------------------------------------------- main/ota_storage.c

  function AfterMark(d: Durable, pending: bool, w: NvsWrite): Durable
  {
    if w.Committed? || w.firstLanded then d.(marker := Some(if pending then 1 else 0)) else d
  }

  /** A missing record permits; an unreadable one never does. */
  predicate BootAllowed(marker: Option<int>, readable: bool) { readable && (marker.None? || marker.value == 0) }

  predicate Permitted(d: Durable) { BootAllowed(d.marker, true) }

  // ---------------------------------------------------------------- the durable states of one upload

  /** The bytes the socket hands over, at most what is wanted. */
  function Taken(bytes: seq<Byte>, remaining: nat): seq<Byte>
  {
    bytes[..Min(|bytes|, Min(remaining, BUFFER_SIZE))]
  }

  /** The receive loop: the states after each write, the last one's contents, and whether it got everything. */
  datatype Reception = Reception(states: seq<Durable>, last: Durable, complete: bool)

  function Receiving(d: Durable, remaining: nat, input: seq<Receive>): Reception
    decreases |input|
  {
    if remaining == 0 then Reception([], d, true)
    else if input == [] || input[0].Late? || input[0].Closed? then Reception([], d, false)
    else if input[0].Silence? then Receiving(d, remaining, input[1..])
    else
      var got := Taken(input[0].bytes, remaining);
      if got == [] then Reception([], d, false)
      else
        var a := d.(content := d.content + if input[0].written then got else input[0].landed);
        if !input[0].written || !input[0].hashed then Reception([a], a, false)
        else
          var rest := Receiving(a, remaining - |got|, input[1..]);
          rest.(states := [a] + rest.states)
  }

  /** Rejected before the marker is touched. */
  predicate Refused(r: Request)
  {
    r.digest.None? || !r.reserved || !r.otaEnabled || r.slotSize.None? || r.length <= 0 || r.length > r.slotSize.value
  }

  /** Every durable state an upload passes through, in order, starting with the one it found. */
  function UploadStates(w: World, r: Request, d: Durable): seq<Durable>
  {
    if Refused(r) then [d]
    else
      var a := AfterMark(d, true, r.mark);
      if !r.mark.Committed? || !r.begun then [d, a]
      else
        var b := a.(content := []);
        if !r.resources then [d, a, b]
        else
          var rx := Receiving(b, r.length, r.input);
          [d, a, b] + rx.states + Verdict(w, r, rx)
  }

  /** From the last byte to the boot pointer. */
  function Verdict(w: World, r: Request, rx: Reception): seq<Durable>
    requires r.digest.Some?
  {
    var d := rx.last;
    if !rx.complete || !r.finished then []
    else if w.sha(d.content) != r.digest.value then [d.(content := r.erased)]
    else if !r.ended || !w.valid(d.content) then []
    else if !r.described || !Accepted(w.project(d.content)) then [d.(content := r.erased)]
    else
      var e := AfterMark(d, false, r.clear);
      if !r.clear.Committed? || !BootAllowed(e.marker, r.readable) then [e, AfterMark(e, true, r.restore)]
      else if r.bootSet then [e, e.(boots := true)]
      else [e]
  }

  /** The body arrived whole but is not the announced image. */
  predicate Mismatched(w: World, r: Request, rx: Reception)
  {
    rx.complete && r.finished && r.digest.Some? && w.sha(rx.last.content) != r.digest.value
  }

  /** The reception of an upload that got as far as receiving. */
  function ReceptionOf(r: Request, d: Durable): Option<Reception>
  {
    if Refused(r) || !r.mark.Committed? || !r.begun || !r.resources then None
    else Some(Receiving(AfterMark(d, true, r.mark).(content := []), r.length, r.input))
  }

  /** A reception that completed took exactly the announced number of bytes. */
  lemma {:induction false} ReceivedAll(d: Durable, remaining: nat, input: seq<Receive>)
    ensures var rx := Receiving(d, remaining, input);
            && rx.last.marker == d.marker && rx.last.boots == d.boots
            && (forall t :: t in rx.states ==> t.marker == d.marker && t.boots == d.boots)
            && (rx.complete ==> |rx.last.content| == |d.content| + remaining)
    decreases |input|
  {
    if remaining > 0 && input != [] && !input[0].Late? && !input[0].Closed? {
      if input[0].Silence? {
        ReceivedAll(d, remaining, input[1..]);
      } else {
        var got := Taken(input[0].bytes, remaining);
        if got != [] && input[0].written {
          ReceivedAll(d.(content := d.content + got), remaining - |got|, input[1..]);
        }
      }
    }
  }

  // ---------------------------------------------------------------- the handlers

  class Updater {
    var marker: Option<int>
    var content: seq<Byte>
    var boots: bool
    ghost var trace: seq<Durable>

    ghost function Flash(): Durable
      reads this
    {
      Durable(marker, content, boots)
    }

    constructor (marker: Option<int>, content: seq<Byte>)
      ensures Flash() == Durable(marker, content, false) && trace == []
    {
      this.marker, this.content, boots, trace := marker, content, false, [];
    }

    method SlotPending(pending: bool, w: NvsWrite) returns (ok: bool)
      modifies this
      ensures ok == w.Committed? && Flash() == AfterMark(old(Flash()), pending, w)
      ensures trace == old(trace) + [Flash()]
    {
      if w.Committed? || w.firstLanded {
        marker := Some(if pending then 1 else 0);
      }
      ok := w.Committed?;
      trace := trace + [Flash()];
    }

    method SlotBootAllowed(readable: bool) returns (allowed: bool)
      ensures allowed == BootAllowed(marker, readable)
    {
      if !readable {
        return false;
      }
      allowed := marker.None? || marker == Some(0);
    }

    method Write(bytes: seq<Byte>)
      modifies this`content, this`trace
      ensures content == old(content) + bytes && trace == old(trace) + [Flash()]
    {
      content := content + bytes;
      trace := trace + [Flash()];
    }

    method Erase(left: seq<Byte>)
      modifies this`content, this`trace
      ensures content == left && trace == old(trace) + [Flash()]
    {
      content := left;
      trace := trace + [Flash()];
    }

    /** The receive loop: deadline, silence, short reads and failing writes included. */
    method ReceiveBody(length: nat, input: seq<Receive>) returns (complete: bool)
      modifies this`content, this`trace
      ensures var rx := Receiving(old(Flash()), length, input);
              Flash() == rx.last && complete == rx.complete && trace == old(trace) + rx.states
    {
      var remaining: nat := length;
      var i := 0;
      complete := true;
      ghost var all := Receiving(Flash(), length, input);
      ghost var start := trace;
      while remaining > 0
        invariant 0 <= i <= |input| && complete
        invariant var rx := Receiving(Flash(), remaining, input[i..]);
                  trace + rx.states == start + all.states && rx.last == all.last && rx.complete == all.complete
        decreases |input| - i
      {
        if i == |input| || input[i].Late? {
          return false;
        }
        var next := input[i];
        i := i + 1;
        if next.Silence? {
          continue;
        }
        if next.Closed? {
          return false;
        }
        var wanted := if remaining < BUFFER_SIZE then remaining else BUFFER_SIZE;
        var got := next.bytes[..Min(|next.bytes|, wanted)];
        if got == [] {
          return false;
        }
        if !next.written {
          Write(next.landed);
          return false;
        }
        Write(got);
        if !next.hashed {
          return false;
        }
        remaining := remaining - |got|;
      }
    }

    /**
     * ota_update_post_handler; `keep` keeps the maintenance reservation until restart: after a success, or when a
     * mismatching image could not be erased.
     */
    method Upload(w: World, r: Request) returns (ok: bool, keep: bool)
      modifies this
      ensures UploadStates(w, r, old(Flash()))[0] == old(Flash())
      ensures trace == old(trace) + UploadStates(w, r, old(Flash()))[1..]
      ensures ok ==> boots && Verified(w, r, content) && Permitted(Flash())
      ensures old(boots) || ok == boots
      ensures var rx := ReceptionOf(r, old(Flash()));
              keep == (ok || (rx.Some? && Mismatched(w, r, rx.value) && !r.eraseOk))
    {
      ok, keep := false, false;
      if r.digest.None? || !r.reserved || !r.otaEnabled || r.slotSize.None? || r.length <= 0 ||
         r.length > r.slotSize.value {
        return;
      }
      var marked := SlotPending(true, r.mark);
      if !marked || !r.begun {
        return;
      }
      Erase([]);
      if !r.resources {
        return;
      }
      var complete := ReceiveBody(r.length, r.input);
      ReceivedAll(Durable(marker, [], boots), r.length, r.input);
      ok, keep := Conclude(w, r, complete);
    }

    method Conclude(w: World, r: Request, complete: bool) returns (ok: bool, keep: bool)
      requires r.digest.Some? && (complete ==> |content| == r.length)
      modifies this
      ensures trace == old(trace) + Verdict(w, r, Reception([], old(Flash()), complete))
      ensures ok ==> boots && Verified(w, r, content) && Permitted(Flash())
      ensures old(boots) || ok == boots
      ensures keep == (ok || (Mismatched(w, r, Reception([], old(Flash()), complete)) && !r.eraseOk))
    {
      ok, keep := false, false;
      if !complete || !r.finished {
        return;
      }
      if w.sha(content) != r.digest.value {
        Erase(r.erased);
        keep := !r.eraseOk;
        return;
      }
      if !r.ended || !w.valid(content) {
        return;
      }
      if !r.described || !Accepted(w.project(content)) {
        Erase(r.erased);
        return;
      }
      var cleared := SlotPending(false, r.clear);
      var allowed := SlotBootAllowed(r.readable);
      if !cleared || !allowed {
        var restored := SlotPending(true, r.restore);
        return;
      }
      if !r.bootSet {
        return;
      }
      boots := true;
      trace := trace + [Flash()];
      ok, keep := true, true;
    }

    /** boot_inactive_post_handler: selects the slot only if its marker permits it and its identity is accepted. */
    method BootInactive(w: World, reserved: bool, readable: bool, described: bool, bootSet: bool) returns (ok: bool)
      modifies this`boots
      ensures ok == (reserved && BootAllowed(marker, readable) && described && Accepted(w.project(content)) && bootSet)
      ensures boots == (old(boots) || ok)
    {
      if !reserved {
        return false;
      }
      var allowed := SlotBootAllowed(readable);
      if !allowed || !described || !Accepted(w.project(content)) || !bootSet {
        return false;
      }
      boots := true;
      ok := true;
    }
  }

  // ---------------------------------------------------------------- what a permitted slot holds

  /** Completely received, hash-matched, validated, of accepted identity. */
  predicate Verified(w: World, r: Request, content: seq<Byte>)
  {
    && r.digest.Some? && |content| == r.length && w.sha(content) == r.digest.value && w.valid(content)
    && Accepted(w.project(content))
  }

  /** Nothing but the original image or a verified upload can be permitted, or selected. */
  predicate SafeSlot(w: World, original: seq<Byte>, requests: set<Request>, d: Durable)
  {
    Permitted(d) || d.boots ==> d.content == original || exists r :: r in requests && Verified(w, r, d.content)
  }

  /** Every power-loss point of an upload leaves the slot safe. */
  lemma UploadIsSafe(w: World, original: seq<Byte>, requests: set<Request>, r: Request, d: Durable, k: nat)
    requires SafeSlot(w, original, requests, d) && !d.boots && k < |UploadStates(w, r, d)|
    ensures SafeSlot(w, original, requests + {r}, UploadStates(w, r, d)[k])
  {
    var states := UploadStates(w, r, d);
    if Refused(r) {
      SafeWithMore(w, original, requests, r, d);
    } else {
      SafeWithMore(w, original, requests, r, d);
      if r.mark.Committed? && r.begun && r.resources {
        var b := AfterMark(d, true, r.mark).(content := []);
        ReceivedAll(b, r.length, r.input);
        VerdictIsSafe(w, original, requests, r, Receiving(b, r.length, r.input));
      }
    }
  }

  lemma SafeWithMore(w: World, original: seq<Byte>, requests: set<Request>, r: Request, d: Durable)
    requires SafeSlot(w, original, requests, d)
    ensures SafeSlot(w, original, requests + {r}, d)
  {
  }

  /** After the upload only a verified image is ever unmarked. */
  lemma VerdictIsSafe(w: World, original: seq<Byte>, requests: set<Request>, r: Request, rx: Reception)
    requires r.digest.Some? && rx.last.marker == Some(1) && !rx.last.boots
    requires rx.complete ==> |rx.last.content| == r.length
    ensures forall t :: t in Verdict(w, r, rx) ==> SafeSlot(w, original, requests + {r}, t)
  {
    assert r in requests + {r};
  }

  /** An upload cut short after some number of durable effects; past the end means it ran to its end. */
  datatype Attempt = Attempt(request: Request, cut: nat)

  /** Uploads one after another, each possibly cut by a power loss, until one makes the slot the boot slot. */
  function AfterAttempts(w: World, d: Durable, attempts: seq<Attempt>): Durable
    decreases |attempts|
  {
    if attempts == [] || d.boots then d
    else
      var states := UploadStates(w, attempts[0].request, d);
      assert states != [];
      AfterAttempts(w, states[Min(attempts[0].cut, |states| - 1)], attempts[1..])
  }

  function RequestsOf(attempts: seq<Attempt>): set<Request>
  {
    set i | 0 <= i < |attempts| :: attempts[i].request
  }

  /**
   * However often uploads were tried and wherever power failed, a slot that the boot-inactive path would permit, or
   * that is selected, holds the original image or one that some request delivered completely, with the hash it
   * announced, valid and of an accepted identity.
   */
  lemma {:induction false} PermittedSlotIsTrusted(w: World, original: seq<Byte>, requests: set<Request>, d: Durable,
                                                  attempts: seq<Attempt>)
    requires SafeSlot(w, original, requests, d)
    ensures SafeSlot(w, original, requests + RequestsOf(attempts), AfterAttempts(w, d, attempts))
    decreases |attempts|
  {
    hide UploadStates, SafeSlot;
    if attempts == [] {
      assert requests + RequestsOf(attempts) == requests;
    } else if d.boots {
      MoreIsSafe(w, original, requests, requests + RequestsOf(attempts), d);
    } else {
      var r := attempts[0].request;
      var states := UploadStates(w, r, d);
      HasStates(w, r, d);
      var k := Min(attempts[0].cut, |states| - 1);
      UploadIsSafe(w, original, requests, r, d, k);
      PermittedSlotIsTrusted(w, original, requests + {r}, states[k], attempts[1..]);
      assert requests + {r} + RequestsOf(attempts[1..]) <= requests + RequestsOf(attempts) by {
        RequestsShift(attempts);
      }
      MoreIsSafe(w, original, requests + {r} + RequestsOf(attempts[1..]), requests + RequestsOf(attempts),
                 AfterAttempts(w, d, attempts));
    }
  }

  lemma HasStates(w: World, r: Request, d: Durable)
    ensures UploadStates(w, r, d) != []
  {
  }

  lemma RequestsShift(attempts: seq<Attempt>)
    requires attempts != []
    ensures attempts[0].request in RequestsOf(attempts) && RequestsOf(attempts[1..]) <= RequestsOf(attempts)
  {
    forall x | x in RequestsOf(attempts[1..])
      ensures x in RequestsOf(attempts)
    {
      var i :| 0 <= i < |attempts| - 1 && x == attempts[1..][i].request;
      assert x == attempts[i + 1].request;
    }
  }

  lemma MoreIsSafe(w: World, original: seq<Byte>, few: set<Request>, many: set<Request>, d: Durable)
    requires SafeSlot(w, original, few, d) && few <= many
    ensures SafeSlot(w, original, many, d)
  {
  }

  // ---------------------------------------------------------------- exactly when an upload is selected

  /** The first n bytes that arrive, unless the body ends, stalls past its deadline or fails to be stored first. */
  function Delivered(input: seq<Receive>, n: nat): Option<seq<Byte>>
    decreases |input|
  {
    if n == 0 then Some([])
    else if input == [] then None
    else
      match input[0]
      case Silence => Delivered(input[1..], n)
      case Chunk(bytes, written, _, hashed) =>
        var here := bytes[..Min(|bytes|, Min(n, 1024))];
        if here == [] || !written || !hashed then None
        else
          var rest := Delivered(input[1..], n - |here|);
          if rest.Some? then Some(here + rest.value) else None
      case _ => None
  }

  /** The request is admitted, and its image arrived whole with the announced hash. */
  predicate Arrives(w: World, r: Request)
  {
    && r.reserved && r.otaEnabled && r.slotSize.Some? && 0 < r.length <= r.slotSize.value
    && r.mark.Committed? && r.begun && r.resources && r.finished
    && var image := Delivered(r.input, r.length); image.Some? && r.digest == Some(w.sha(image.value))
  }

  /** The bytes are a valid image of one of the three accepted projects. */
  predicate Recognised(w: World, r: Request, image: seq<Byte>)
  {
    r.ended && w.valid(image) && r.described && w.project(image) in ["SnapHeater_U1", "dragonbreath", "panda_breath"]
  }

  /** Everything an upload needs for its image to be selected for the next boot. */
  predicate Succeeds(w: World, r: Request)
  {
    && Arrives(w, r) && Recognised(w, r, Delivered(r.input, r.length).value)
    && r.clear.Committed? && r.readable && r.bootSet
  }

  lemma {:induction false} ReceptionIsDelivered(d: Durable, n: nat, input: seq<Receive>)
    ensures var rx, body := Receiving(d, n, input), Delivered(input, n);
            && rx.complete == body.Some? && rx.last.marker == d.marker && rx.last.boots == d.boots
            && (body.Some? ==> rx.last.content == d.content + body.value)
            && (forall t :: t in rx.states ==> t.boots == d.boots && t.marker == d.marker)
    decreases |input|
  {
    if n == 0 {
      assert d.content + [] == d.content;
    } else if input != [] {
      if input[0].Silence? {
        ReceptionIsDelivered(d, n, input[1..]);
      } else if input[0].Chunk? {
        var got := Taken(input[0].bytes, n);
        if got != [] && input[0].written && input[0].hashed {
          ReceptionIsDelivered(d.(content := d.content + got), n - |got|, input[1..]);
        }
      }
    }
  }

  lemma VerdictIs(w: World, r: Request, rx: Reception)
    requires r.digest.Some? && !rx.last.boots
    ensures var states := Verdict(w, r, rx);
            var good := && rx.complete && r.finished && w.sha(rx.last.content) == r.digest.value && r.ended
                        && w.valid(rx.last.content) && r.described && Accepted(w.project(rx.last.content))
                        && r.clear.Committed? && r.readable && r.bootSet;
            && (states != [] ==> (states[|states| - 1].boots <==> good))
            && (good ==> states != [] && states[|states| - 1] == Durable(Some(0), rx.last.content, true))
  {
  }

  /**
   * An upload ends with its slot selected if and only if everything it needs holds; the slot then holds exactly the
   * bytes that were delivered, unmarked. A refused upload leaves the flash as it was.
   */
  lemma UploadBootsIff(w: World, r: Request, d: Durable)
    requires !d.boots
    ensures var states := UploadStates(w, r, d);
            && states != []
            && var last := states[|states| - 1];
            && (last.boots <==> Succeeds(w, r))
            && (last.boots ==> last == Durable(Some(0), Delivered(r.input, r.length).value, true))
            && (!r.reserved || !r.otaEnabled || r.length <= 0 || r.digest.None? ==> states == [d])
  {
    if !Refused(r) {
      var a := AfterMark(d, true, r.mark);
      if r.mark.Committed? && r.begun && r.resources {
        var b := a.(content := []);
        var rx := Receiving(b, r.length, r.input);
        ReceptionIsDelivered(b, r.length, r.input);
        VerdictIs(w, r, rx);
        hide Receiving, Verdict, Delivered;
        if rx.complete {
          assert rx.last.content == Delivered(r.input, r.length).value;
        }
      }
    }
  }

  /** What is left when the received body is rejected, or when its permission cannot be recorded. */
  lemma RejectionIs(w: World, r: Request, rx: Reception)
    requires r.digest.Some? && rx.last.marker == Some(1)
    ensures var states, image := Verdict(w, r, rx), rx.last.content;
            var last := if states == [] then rx.last else states[|states| - 1];
            var good := && rx.complete && r.finished && w.sha(image) == r.digest.value && r.ended && w.valid(image)
                        && r.described && Accepted(w.project(image));
            && (r.restore.Committed? ==> (Permitted(last) <==> good && r.clear.Committed? && r.readable))
            && (rx.complete && r.finished && w.sha(image) != r.digest.value ==> last.content == r.erased)
            && (rx.complete && r.finished && w.sha(image) == r.digest.value && r.ended && w.valid(image) && !good ==>
                  last.content == r.erased)
  {
  }

  /**
   * Once an upload has marked the slot, the slot ends up permitted if and only if its image arrived, was recognised
   * and the permission was recorded and read back (given that a failed attempt to record it could be undone); and an
   * image that arrived whole but is not the announced one, or is of a foreign project, is erased.
   */
  lemma UploadPermitsIff(w: World, r: Request, d: Durable)
    requires !d.boots && r.reserved && r.otaEnabled && r.slotSize.Some? && 0 < r.length <= r.slotSize.value
    requires r.digest.Some? && r.mark.Committed?
    ensures var states, image := UploadStates(w, r, d), Delivered(r.input, r.length);
            && states != []
            && var last := states[|states| - 1];
            && (r.restore.Committed? ==>
                  (last.marker in {None, Some(0)} <==>
                     Arrives(w, r) && Recognised(w, r, image.value) && r.clear.Committed? && r.readable))
            && (r.begun && r.resources && r.finished && image.Some? && !Arrives(w, r) ==> last.content == r.erased)
            && (Arrives(w, r) && r.ended && w.valid(image.value) && !Recognised(w, r, image.value) ==>
                  last.content == r.erased)
  {
    var a := AfterMark(d, true, r.mark);
    if r.begun && r.resources {
      var b := a.(content := []);
      var rx := Receiving(b, r.length, r.input);
      ReceptionIsDelivered(b, r.length, r.input);
      RejectionIs(w, r, rx);
      hide Receiving, Verdict, Delivered;
      if rx.complete {
        assert rx.last.content == Delivered(r.input, r.length).value;
      }
    }
  }
}
