/** main/ws_message_buffer.h: a text message reassembled from frames and chunks in a fixed buffer (RFC 6455, 5.4). */
module WsMessageBuffer {
  import opened Common

  const CAPACITY := 16384

  type Byte = b: int | 0 <= b < 256

  /** One receive event: a chunk of one frame, at an offset into a payload of the announced length. */
  datatype Event = Event(opcode: nat, fin: bool, payloadLength: int, offset: int, data: Option<seq<Byte>>, length: int)
  {
    /** The bytes the caller vouches for: a given pointer covers the given length. */
    predicate Backed() { data.Some? && length > 0 ==> length <= |data.value| }

    predicate Control() { opcode != 0 && opcode != 1 }
  }

  /** The buffer's content (bytes[..used]) and frame bookkeeping. */
  datatype Buffer = Buffer(content: seq<Byte>, frameStart: nat, received: nat, frameLength: nat, active: bool)

  const EMPTY := Buffer([], 0, 0, 0, false)

  // ---------------------------------------------------------------- specification functions

  function Invalid(b: Buffer): Buffer { b.(content := [], active := false) }

  /** A frame's first chunk: a text frame opens a message, a continuation needs a finished frame before it. */
  function Opened(b: Buffer, e: Event): Option<Buffer>
  {
    if e.offset != 0 then Some(b)
    else if e.opcode != 1 && (!b.active || b.received != b.frameLength) then None
    else
      var a := if e.opcode == 1 then b.(content := [], active := true) else b;
      Some(a.(frameStart := |a.content|, received := 0, frameLength := Max(e.payloadLength, 0)))
  }

  predicate Acceptable(b: Buffer, e: Event)
  {
    && b.active && e.length >= 0 && e.offset >= 0 && e.payloadLength >= 0 && (e.length > 0 ==> e.data.Some?)
    && e.offset == b.received && e.payloadLength == b.frameLength && e.offset <= b.frameLength
    && e.length <= b.frameLength - e.offset && b.frameLength < CAPACITY - b.frameStart
  }

  function Appended(b: Buffer, e: Event): (Buffer, Option<seq<Byte>>)
    requires e.Backed()
  {
    if !Acceptable(b, e) then (Invalid(b), None)
    else
      var chunk := if e.length > 0 then e.data.value[..e.length] else [];
      var c := b.(content := b.content + chunk, received := b.received + e.length);
      if e.fin && c.received == c.frameLength then (c.(active := false), Some(c.content)) else (c, None)
  }

  /** The next buffer, and the whole message if this event completes one. */
  function AfterEvent(b: Buffer, e: Event): (Buffer, Option<seq<Byte>>)
    requires e.Backed()
  {
    if e.Control() then (b, None)
    else
      var frame := Opened(b, e);
      if frame.None? then (Invalid(b), None)
      else Appended(frame.value, e)
  }

  /** used = frame_start + frame_received while active, and everything fits with room for the terminator. */
  predicate Sane(b: Buffer)
  {
    && |b.content| < CAPACITY
    && (b.active ==> && |b.content| == b.frameStart + b.received && b.received <= b.frameLength
                     && b.frameStart + b.frameLength < CAPACITY)
  }

  lemma EventKeepsSane(b: Buffer, e: Event)
    requires Sane(b) && e.Backed()
    ensures Sane(AfterEvent(b, e).0)
  {
  }

  // ---------------------------------------------------------------- the buffer itself

  class MessageBuffer {
    const bytes: array<Byte>
    var used: nat
    var frameStart: nat
    var received: nat
    var frameLength: nat
    var active: bool

    ghost predicate Valid()
      reads this, bytes
    {
      bytes.Length == CAPACITY && used < CAPACITY && Sane(View())
    }

    ghost function View(): Buffer
      reads this, bytes
      requires bytes.Length == CAPACITY && used < CAPACITY
    {
      Buffer(bytes[..used], frameStart, received, frameLength, active)
    }

    constructor ()
      ensures Valid() && View() == EMPTY && fresh(bytes)
    {
      bytes := new Byte[CAPACITY](_ => 0);
      used, frameStart, received, frameLength, active := 0, 0, 0, 0, false;
    }

    /** The first chunk of a frame sets the frame's bounds; `ok` is false when it may not come now. */
    method Open(e: Event) returns (ok: bool)
      requires Valid() && e.offset == 0
      modifies this
      ensures bytes.Length == CAPACITY && used < CAPACITY && ok == Opened(old(View()), e).Some?
      ensures if ok then View() == Opened(old(View()), e).value else View() == old(View())
    {
      if e.opcode == 1 {
        used, active := 0, true;
      } else if !active || received != frameLength {
        return false;
      }
      frameStart := used;
      received := 0;
      frameLength := if e.payloadLength >= 0 then e.payloadLength else 0;
      ok := true;
    }

    method Reset()
      requires bytes.Length == CAPACITY && used < CAPACITY
      modifies this`active, this`used
      ensures used < CAPACITY && View() == Invalid(old(View()))
    {
      active, used := false, 0;
    }

    /** Any event whatever is handled within the buffer; a complete message is left NUL-terminated at its start. */
    method Accumulate(e: Event) returns (done: bool, completeLength: nat)
      requires Valid() && e.Backed()
      modifies this, bytes
      ensures Valid() && View() == AfterEvent(old(View()), e).0
      ensures done == AfterEvent(old(View()), e).1.Some?
      ensures done ==> completeLength < CAPACITY && bytes[completeLength] == 0
                       && bytes[..completeLength] == AfterEvent(old(View()), e).1.value
      ensures !done ==> completeLength == 0
    {
      done, completeLength := false, 0;
      if e.opcode != 0 && e.opcode != 1 {
        return;
      }
      EventKeepsSane(View(), e);
      if e.offset == 0 {
        var ok := Open(e);
        if !ok {
          Reset();
          return;
        }
      }
      done, completeLength := Append(e);
    }

    method Append(e: Event) returns (done: bool, completeLength: nat)
      requires bytes.Length == CAPACITY && used < CAPACITY && e.Backed()
      requires Acceptable(View(), e) ==> used == frameStart + received
      modifies this, bytes
      ensures used < CAPACITY && View() == Appended(old(View()), e).0
      ensures if done then completeLength == used && bytes[used] == 0 else completeLength == 0
      ensures Appended(old(View()), e).1 == if done then Some(bytes[..used]) else None
    {
      done, completeLength := false, 0;
      if !active || e.length < 0 || e.offset < 0 || e.payloadLength < 0 || (e.length != 0 && e.data.None?) ||
         e.offset != received || e.payloadLength != frameLength || e.offset > frameLength ||
         e.length > frameLength - e.offset || frameLength >= CAPACITY - frameStart {
        Reset();
        return;
      }
      if e.length > 0 {
        Copy(e.data.value, e.length);
      }
      received := received + e.length;
      if e.fin && received == frameLength {
        bytes[used] := 0;
        completeLength := used;
        active := false;
        done := true;
      }
    }

    /** memcpy at the end of the content. */
    method Copy(data: seq<Byte>, length: nat)
      requires bytes.Length == CAPACITY && length <= |data| && used + length < CAPACITY
      modifies this`used, bytes
      ensures used == old(used) + length && bytes[..used] == old(bytes[..used]) + data[..length]
    {
      var start := used;
      for i := 0 to length
        invariant bytes[..start] == old(bytes[..start]) && bytes[start..start + i] == data[..i] && used == start
      {
        bytes[start + i] := data[i];
      }
      used := used + length;
      assert bytes[..used] == bytes[..start] + bytes[start..used];
    }
  }

  // ---------------------------------------------------------------- whole messages

  /** The state after a run of events, and the messages completed on the way. */
  function Run(b: Buffer, es: seq<Event>): (Buffer, seq<seq<Byte>>)
    requires forall i :: 0 <= i < |es| ==> es[i].Backed()
    decreases |es|
  {
    if es == [] then (b, [])
    else
      var (a, message) := AfterEvent(b, es[0]);
      var (c, messages) := Run(a, es[1..]);
      (c, if message.Some? then [message.value] + messages else messages)
  }

  function DataEvents(es: seq<Event>): seq<Event>
  {
    if es == [] then [] else if es[0].Control() then DataEvents(es[1..]) else [es[0]] + DataEvents(es[1..])
  }

  function Bytes(chunks: seq<seq<Byte>>): seq<Byte>
  {
    if chunks == [] then [] else chunks[0] + Bytes(chunks[1..])
  }

  /** A frame as it arrives: non-empty chunks, or one empty chunk when its payload is empty. */
  predicate Chunked(chunks: seq<seq<Byte>>)
  {
    chunks == [[]] || (chunks != [] && forall i :: 0 <= i < |chunks| ==> chunks[i] != [])
  }

  function ChunkEvents(opcode: nat, fin: bool, total: nat, offset: nat, chunks: seq<seq<Byte>>): (es: seq<Event>)
    ensures |es| == |chunks|
    ensures forall i :: 0 <= i < |es| ==> es[i].Backed() && es[i].opcode == opcode
    decreases |chunks|
  {
    if chunks == [] then []
    else [Event(opcode, fin, total, offset, Some(chunks[0]), |chunks[0]|)] +
         ChunkEvents(opcode, fin, total, offset + |chunks[0]|, chunks[1..])
  }

  /** A message as frames: the first is text, the others continue it, the last one is final. */
  function MessageEvents(frames: seq<seq<seq<Byte>>>, first: bool): (es: seq<Event>)
    ensures forall i :: 0 <= i < |es| ==> es[i].Backed() && !es[i].Control()
  {
    if frames == [] then []
    else ChunkEvents(if first then 1 else 0, |frames| == 1, |Bytes(frames[0])|, 0, frames[0]) +
         MessageEvents(frames[1..], false)
  }

  function MessageBytes(frames: seq<seq<seq<Byte>>>): seq<Byte>
  {
    if frames == [] then [] else Bytes(frames[0]) + MessageBytes(frames[1..])
  }

  lemma {:induction false} RunConcat(b: Buffer, x: seq<Event>, y: seq<Event>)
    requires forall i :: 0 <= i < |x| ==> x[i].Backed()
    requires forall i :: 0 <= i < |y| ==> y[i].Backed()
    ensures Run(b, x + y) == (Run(Run(b, x).0, y).0, Run(b, x).1 + Run(Run(b, x).0, y).1)
    decreases |x|
  {
    if x == [] {
      assert x + y == y && [] + Run(b, y).1 == Run(b, y).1;
    } else {
      hide AfterEvent;
      assert (x + y)[1..] == x[1..] + y && (x + y)[0] == x[0];
      var (a, message) := AfterEvent(b, x[0]);
      RunConcat(a, x[1..], y);
      var (c, messages) := Run(a, x[1..]);
      assert message.Some? ==> [message.value] + (messages + Run(c, y).1) == [message.value] + messages + Run(c, y).1;
    }
  }

  /** Control frames may interleave anywhere. */
  lemma {:induction false} ControlIsInvisible(b: Buffer, es: seq<Event>)
    requires forall i :: 0 <= i < |es| ==> es[i].Backed()
    ensures forall i :: 0 <= i < |DataEvents(es)| ==> DataEvents(es)[i].Backed()
    ensures Run(b, es) == Run(b, DataEvents(es))
    decreases |es|
  {
    if es != [] {
      ControlIsInvisible(AfterEvent(b, es[0]).0, es[1..]);
      if !es[0].Control() {
        hide AfterEvent;
        assert DataEvents(es)[1..] == DataEvents(es[1..]);
      }
    }
  }

  /** The rest of a frame, once its first chunk has arrived. */
  lemma {:induction false} ChunksFollow(b: Buffer, opcode: nat, fin: bool, total: nat, chunks: seq<seq<Byte>>)
    requires Sane(b) && b.active && b.frameLength == total && opcode <= 1 && 0 < b.received
    requires b.received + |Bytes(chunks)| == total && forall i :: 0 <= i < |chunks| ==> chunks[i] != []
    ensures var (a, messages) := Run(b, ChunkEvents(opcode, fin, total, b.received, chunks));
            if chunks == [] then a == b && messages == []
            else && a.content == b.content + Bytes(chunks) && a.received == total == a.frameLength
                 && a.frameStart == b.frameStart && a.active == !fin
                 && messages == (if fin then [a.content] else [])
    ensures chunks != [] ==> Run(b, ChunkEvents(opcode, fin, total, b.received, chunks)[..|chunks| - 1]).1 == []
    decreases |chunks|
  {
    if chunks != [] {
      hide AfterEvent, Sane;
      var e := ChunkEvents(opcode, fin, total, b.received, chunks)[0];
      var a := AfterEvent(b, e).0;
      ChunkArrives(b, opcode, fin, total, chunks[0]);
      if chunks[1..] == [] {
        assert Bytes(chunks) == chunks[0];
      } else {
        assert chunks[1..][0] != [] && a.active;
        ChunksFollow(a, opcode, fin, total, chunks[1..]);
        assert b.content + Bytes(chunks) == a.content + Bytes(chunks[1..]);
        FirstThenRest(e, ChunkEvents(opcode, fin, total, a.received, chunks[1..]));
      }
    }
  }

  /** One more chunk of the frame under way. */
  lemma ChunkArrives(b: Buffer, opcode: nat, fin: bool, total: nat, chunk: seq<Byte>)
    requires Sane(b) && b.active && b.frameLength == total && opcode <= 1 && 0 < b.received
    requires chunk != [] && b.received + |chunk| <= total
    ensures var (a, message) := AfterEvent(b, Event(opcode, fin, total, b.received, Some(chunk), |chunk|));
            && a.content == b.content + chunk && a.received == b.received + |chunk| && Sane(a)
            && a.frameLength == total && a.frameStart == b.frameStart && a.active == !(fin && a.received == total)
            && message == if fin && a.received == total then Some(a.content) else None
  {
  }

  lemma FirstThenRest(e: Event, rest: seq<Event>)
    requires rest != []
    ensures ([e] + rest)[..|rest|] == [e] + rest[..|rest| - 1]
    ensures ([e] + rest)[..|rest|][1..] == rest[..|rest| - 1]
  {
  }

  /** The first chunk of a frame. */
  lemma FrameOpens(b: Buffer, first: bool, fin: bool, total: nat, chunk: seq<Byte>)
    requires Sane(b) && (!first ==> b.active && b.received == b.frameLength)
    requires |chunk| <= total && (if first then 0 else |b.content|) + total < CAPACITY
    ensures var (a, message) := AfterEvent(b, Event(if first then 1 else 0, fin, total, 0, Some(chunk), |chunk|));
            && a.content == (if first then [] else b.content) + chunk && Sane(a)
            && a.received == |chunk| && a.frameLength == total && a.active == !(fin && |chunk| == total)
            && message == if fin && |chunk| == total then Some(a.content) else None
  {
    EventKeepsSane(b, Event(if first then 1 else 0, fin, total, 0, Some(chunk), |chunk|));
  }

  lemma BytesOfOne(chunks: seq<seq<Byte>>)
    requires chunks != []
    ensures |chunks[0]| <= |Bytes(chunks)| && (chunks[1..] == [] ==> Bytes(chunks) == chunks[0])
    ensures chunks[1..] != [] && chunks[1..][0] != [] ==> |chunks[0]| < |Bytes(chunks)|
  {
  }

  /** One whole frame, as the first of a message or after a finished one. */
  lemma FrameFollows(b: Buffer, first: bool, fin: bool, chunks: seq<seq<Byte>>)
    requires Sane(b) && Chunked(chunks) && (!first ==> b.active && b.received == b.frameLength)
    requires (if first then 0 else |b.content|) + |Bytes(chunks)| < CAPACITY
    ensures var opcode := if first then 1 else 0;
            var (a, messages) := Run(b, ChunkEvents(opcode, fin, |Bytes(chunks)|, 0, chunks));
            && a.content == (if first then [] else b.content) + Bytes(chunks) && Sane(a)
            && a.active == !fin && a.received == a.frameLength
            && messages == (if fin then [a.content] else [])
            && Run(b, ChunkEvents(opcode, fin, |Bytes(chunks)|, 0, chunks)[..|chunks| - 1]).1 == []
  {
    hide AfterEvent, Sane;
    var opcode, total := if first then 1 else 0, |Bytes(chunks)|;
    var e := Event(opcode, fin, total, 0, Some(chunks[0]), |chunks[0]|);
    var a := AfterEvent(b, e).0;
    BytesOfOne(chunks);
    FrameOpens(b, first, fin, total, chunks[0]);
    FrameKeepsSane(b, ChunkEvents(opcode, fin, total, 0, chunks));
    if chunks[1..] != [] {
      assert forall i :: 0 <= i < |chunks[1..]| ==> chunks[1..][i] == chunks[i + 1];
      ChunksFollow(a, opcode, fin, total, chunks[1..]);
      assert (if first then [] else b.content) + Bytes(chunks) == a.content + Bytes(chunks[1..]);
      FirstThenRest(e, ChunkEvents(opcode, fin, total, a.received, chunks[1..]));
    } else {
      assert ChunkEvents(opcode, fin, total, 0, chunks) == [e];
    }
  }

  lemma {:induction false} FrameKeepsSane(b: Buffer, es: seq<Event>)
    requires Sane(b) && forall i :: 0 <= i < |es| ==> es[i].Backed()
    ensures Sane(Run(b, es).0)
    decreases |es|
  {
    if es != [] {
      EventKeepsSane(b, es[0]);
      FrameKeepsSane(AfterEvent(b, es[0]).0, es[1..]);
    }
  }

  lemma FramesSplit(frames: seq<seq<seq<Byte>>>, first: bool)
    requires frames != [] && Chunked(frames[0]) && (|frames| > 1 ==> MessageEvents(frames[1..], false) != [])
    ensures var head := ChunkEvents(if first then 1 else 0, |frames| == 1, |Bytes(frames[0])|, 0, frames[0]);
            var rest := MessageEvents(frames[1..], false);
            var m := MessageEvents(frames, first);
            && m == head + rest && m != []
            && m[..|m| - 1] == (if |frames| == 1 then head[..|frames[0]| - 1] else head + rest[..|rest| - 1])
  {
  }

  /** What is expected of the events of `frames`, on a buffer that holds `before` of the message. */
  predicate Reported(b: Buffer, before: seq<Byte>, frames: seq<seq<seq<Byte>>>, first: bool)
  {
    var m := MessageEvents(frames, first);
    m != [] && Run(b, m).1 == [before + MessageBytes(frames)] && Run(b, m[..|m| - 1]).1 == []
  }

  function HeadEvents(frames: seq<seq<seq<Byte>>>, first: bool): (es: seq<Event>)
    requires frames != []
    ensures forall i :: 0 <= i < |es| ==> es[i].Backed()
  {
    ChunkEvents(if first then 1 else 0, |frames| == 1, |Bytes(frames[0])|, 0, frames[0])
  }

  lemma LastFrame(b: Buffer, before: seq<Byte>, frames: seq<seq<seq<Byte>>>, first: bool)
    requires |frames| == 1 && Chunked(frames[0])
    requires var head := HeadEvents(frames, first);
             Run(b, head).1 == [before + Bytes(frames[0])] && Run(b, head[..|frames[0]| - 1]).1 == []
    ensures Reported(b, before, frames, first)
  {
    hide Run, MessageEvents, Bytes;
    NoFrames(b);
    FramesSplit(frames, first);
    var head := HeadEvents(frames, first);
    assert frames[1..] == [] && head + [] == head;
    assert MessageBytes(frames) == Bytes(frames[0]) + [] == Bytes(frames[0]);
  }

  lemma FrameAndRest(b: Buffer, a: Buffer, before: seq<Byte>, frames: seq<seq<seq<Byte>>>, first: bool)
    requires |frames| > 1 && Chunked(frames[0])
    requires Run(b, HeadEvents(frames, first)) == (a, []) && Reported(a, before + Bytes(frames[0]), frames[1..], false)
    ensures Reported(b, before, frames, first)
  {
    hide Run, MessageEvents, HeadEvents, Bytes, MessageBytes, Chunked;
    var head, rest := HeadEvents(frames, first), MessageEvents(frames[1..], false);
    HeadThenRest(frames, first);
    RunConcat(b, head, rest);
    RunConcat(b, head, rest[..|rest| - 1]);
    BytesOfHeadAndRest(before, frames);
  }

  lemma HeadThenRest(frames: seq<seq<seq<Byte>>>, first: bool)
    requires |frames| > 1 && Chunked(frames[0]) && MessageEvents(frames[1..], false) != []
    ensures var head, rest := HeadEvents(frames, first), MessageEvents(frames[1..], false);
            var m := MessageEvents(frames, first);
            m == head + rest && m != [] && m[..|m| - 1] == head + rest[..|rest| - 1]
  {
    hide MessageEvents, Chunked, Bytes;
    FramesSplit(frames, first);
  }

  lemma BytesOfHeadAndRest(before: seq<Byte>, frames: seq<seq<seq<Byte>>>)
    requires frames != []
    ensures before + MessageBytes(frames) == before + Bytes(frames[0]) + MessageBytes(frames[1..])
  {
    hide Bytes;
  }

  lemma {:induction false} FramesFollow(b: Buffer, first: bool, frames: seq<seq<seq<Byte>>>)
    requires Sane(b) && frames != [] && (!first ==> b.active && b.received == b.frameLength)
    requires forall i :: 0 <= i < |frames| ==> Chunked(frames[i])
    requires (if first then 0 else |b.content|) + |MessageBytes(frames)| < CAPACITY
    ensures Reported(b, if first then [] else b.content, frames, first)
    decreases |frames|
  {
    hide Reported, AfterEvent, Sane, Chunked, Run, MessageEvents, Bytes;
    var before := if first then [] else b.content;
    FrameFollows(b, first, |frames| == 1, frames[0]);
    if |frames| == 1 {
      LastFrame(b, before, frames, first);
    } else {
      var a := Run(b, HeadEvents(frames, first)).0;
      FramesFollow(a, false, frames[1..]);
      FrameAndRest(b, a, before, frames, first);
    }
  }

  lemma NoFrames(b: Buffer)
    ensures MessageEvents([], false) == [] && Run(b, []) == (b, [])
  {
  }

  /**
   * Whatever the buffer held before, a text message below the limit, split into any frames and chunks with control
   * frames anywhere between, is reported with its bytes by its last event and by none before it.
   */
  lemma MessageIsReassembled(b: Buffer, before: seq<Event>, last: Event, frames: seq<seq<seq<Byte>>>)
    requires Sane(b) && frames != [] && forall f :: f in frames ==> Chunked(f)
    requires |MessageBytes(frames)| < CAPACITY
    requires forall e :: e in before ==> e.Backed()
    requires DataEvents(before) + [last] == MessageEvents(frames, true)
    ensures last.Backed()
    ensures Run(b, before).1 == []
    ensures AfterEvent(Run(b, before).0, last).1 == Some(MessageBytes(frames))
  {
    hide AfterEvent, Chunked, Sane, MessageEvents, MessageBytes, DataEvents, Run;
    var m, data := MessageEvents(frames, true), DataEvents(before);
    assert m[|m| - 1] == last && m[..|m| - 1] == data;
    FramesFollow(b, true, frames);
    ControlIsInvisible(b, before);
    RunConcat(b, data, [last]);
    var a := Run(b, data).0;
    RunOfOne(a, last);
    assert [] + Run(a, [last]).1 == Run(a, [last]).1 && [] + MessageBytes(frames) == MessageBytes(frames);
    assert Run(a, [last]).1 == [MessageBytes(frames)];
    assert Run(a, [last]).1[0] == MessageBytes(frames);
  }

  lemma RunOfOne(b: Buffer, e: Event)
    requires e.Backed()
    ensures Run(b, [e]).1 == if AfterEvent(b, e).1.Some? then [AfterEvent(b, e).1.value] else []
  {
    hide AfterEvent;
  }

  // ---------------------------------------------------------------- which events make a message

  function BytesOf(e: Event): seq<Byte>
    requires e.Backed()
  {
    if e.data.Some? && e.length > 0 then e.data.value[..e.length] else []
  }

  /** The bytes of data events s..k-1, in order. */
  function Carried(d: seq<Event>, s: nat, k: nat): seq<Byte>
    requires s <= k <= |d| && forall i :: 0 <= i < |d| ==> d[i].Backed()
    decreases k
  {
    if k == s then []
    else Carried(d, s, k - 1) + BytesOf(d[k - 1])
  }

  /** A chunk inside its frame, with its bytes. */
  predicate Whole(e: Event)
  {
    && 0 <= e.offset && 0 <= e.length && e.offset + e.length <= e.payloadLength && (e.length > 0 ==> e.data.Some?)
  }

  predicate EndsFrame(e: Event) { e.offset + e.length == e.payloadLength }

  /** The next chunk of the same frame, or the first one of a continuation after a finished frame. */
  predicate Follows(e: Event, f: Event)
  {
    if f.offset == 0 then f.opcode != 1 && EndsFrame(e)
    else f.offset == e.offset + e.length && f.payloadLength == e.payloadLength
  }

  /** Events s..n-1 are one text message so far: no gap, no overlap, each frame below the limit with those before it. */
  predicate Chain(d: seq<Event>, s: nat, n: nat)
    requires n <= |d| && forall i :: 0 <= i < |d| ==> d[i].Backed()
  {
    && s < n && d[s].opcode == 1 && d[s].offset == 0
    && (forall k :: s < k < n ==> Follows(d[k - 1], d[k]))
    && (forall k :: s <= k < n ==>
          Whole(d[k]) && |Carried(d, s, k)| - d[k].offset + d[k].payloadLength < 16_384)
  }

  predicate Begun(d: seq<Event>, s: nat, n: nat)
    requires n <= |d| && forall i :: 0 <= i < |d| ==> d[i].Backed()
  {
    Chain(d, s, n) && forall k :: s <= k < n ==> !(d[k].fin && EndsFrame(d[k]))
  }

  /** The state after data events 0..n-1. */
  function Held(d: seq<Event>, n: nat): Buffer
    requires n <= |d| && forall i :: 0 <= i < |d| ==> d[i].Backed()
  {
    if n == 0 then EMPTY else AfterEvent(Held(d, n - 1), d[n - 1]).0
  }

  lemma {:induction false} HeldIsRun(d: seq<Event>, n: nat)
    requires n <= |d| && forall i :: 0 <= i < |d| ==> d[i].Backed()
    ensures Run(EMPTY, d[..n]).0 == Held(d, n) && Sane(Held(d, n))
  {
    hide AfterEvent, Sane;
    if n == 0 {
      EmptyIsSane();
    } else {
      HeldIsRun(d, n - 1);
      assert d[..n] == d[..n - 1] + [d[n - 1]];
      RunConcat(EMPTY, d[..n - 1], [d[n - 1]]);
      RunLast(Held(d, n - 1), d[n - 1]);
      EventKeepsSane(Held(d, n - 1), d[n - 1]);
    }
  }

  lemma EmptyIsSane()
    ensures Sane(EMPTY)
  {
  }

  lemma RunLast(b: Buffer, e: Event)
    requires e.Backed()
    ensures Run(b, [e]).0 == AfterEvent(b, e).0
  {
    hide AfterEvent;
  }

  /** A buffer after event p of the message it holds. */
  predicate At(b: Buffer, p: Event)
  {
    b.active && b.received == p.offset + p.length && b.frameLength == p.payloadLength && 0 <= p.offset && 0 <= p.length
    && b.frameStart == |b.content| - b.received
  }

  /** What an event does to a buffer: it joins the message, and may complete it, or the message is dropped. */
  lemma EventJoins(b: Buffer, p: Event, e: Event)
    requires At(b, p) && e.Backed() && e.opcode <= 1 && !(e.opcode == 1 && e.offset == 0)
    ensures var (a, message) := AfterEvent(b, e);
            if !(Follows(p, e) && Whole(e) && |b.content| - e.offset + e.payloadLength < 16_384) then
              message.None? && !a.active
            else
              && a.content == b.content + BytesOf(e)
              && (if e.fin && EndsFrame(e) then message == Some(a.content) && !a.active else message.None? && At(a, e))
  {
  }

  lemma EventBegins(b: Buffer, e: Event)
    requires e.Backed() && e.opcode == 1 && e.offset == 0
    ensures var (a, message) := AfterEvent(b, e);
            if !Whole(e) || e.payloadLength >= 16_384 then message.None? && !a.active
            else
              && a.content == BytesOf(e)
              && (if e.fin && EndsFrame(e) then message == Some(a.content) && !a.active else message.None? && At(a, e))
  {
  }

  lemma NothingJoins(b: Buffer, e: Event)
    requires e.Backed() && !b.active && e.opcode <= 1 && !(e.opcode == 1 && e.offset == 0)
    ensures AfterEvent(b, e).1.None? && !AfterEvent(b, e).0.active
  {
  }

  predicate Data(d: seq<Event>) { forall i :: 0 <= i < |d| ==> d[i].Backed() && d[i].opcode <= 1 }

  /** The buffer holds the message that events s..n-1 have begun. */
  predicate Holds(b: Buffer, d: seq<Event>, s: nat, n: nat)
    requires n <= |d| && forall i :: 0 <= i < |d| ==> d[i].Backed()
  {
    Begun(d, s, n) && At(b, d[n - 1]) && b.content == Carried(d, s, n)
  }

  lemma ChainOfOne(d: seq<Event>, s: nat)
    requires Data(d) && s < |d|
    ensures Chain(d, s, s + 1) <==> d[s].opcode == 1 && d[s].offset == 0 && Whole(d[s]) && d[s].payloadLength < 16_384
    ensures Begun(d, s, s + 1) <==> Chain(d, s, s + 1) && !(d[s].fin && EndsFrame(d[s]))
    ensures Carried(d, s, s + 1) == BytesOf(d[s])
  {
    assert Carried(d, s, s) == [];
    assert Carried(d, s, s + 1) == [] + BytesOf(d[s]);
  }

  /** A chain of two or more is a shorter one that the last event joins. */
  lemma ChainGrows(d: seq<Event>, s: nat, n: nat)
    requires Data(d) && s < n < |d|
    ensures var size := |Carried(d, s, n)| - d[n].offset + d[n].payloadLength;
            Chain(d, s, n + 1) <==> Chain(d, s, n) && Follows(d[n - 1], d[n]) && Whole(d[n]) && size < 16_384
    ensures Begun(d, s, n + 1) <==> Begun(d, s, n) && Chain(d, s, n + 1) && !(d[n].fin && EndsFrame(d[n]))
    ensures Carried(d, s, n + 1) == Carried(d, s, n) + BytesOf(d[n])
  {
    hide Follows, Whole, EndsFrame, Carried, BytesOf;
    CarriedGrows(d, s, n);
  }

  lemma CarriedGrows(d: seq<Event>, s: nat, n: nat)
    requires Data(d) && s <= n < |d|
    ensures Carried(d, s, n + 1) == Carried(d, s, n) + BytesOf(d[n])
  {
  }

  lemma BegunBounds(d: seq<Event>, s: nat, n: nat)
    requires Data(d) && n <= |d| && Begun(d, s, n)
    ensures s < n && Chain(d, s, n)
  {
  }

  lemma FollowerContinues(e: Event, f: Event)
    requires Follows(e, f)
    ensures !(f.opcode == 1 && f.offset == 0)
  {
  }

  lemma OneIsHeld(d: seq<Event>, s: nat)
    requires Data(d) && s < |d| && Begun(d, s, s + 1)
    ensures Holds(Held(d, s + 1), d, s, s + 1)
  {
    ChainOfOne(d, s);
    EventBegins(Held(d, s), d[s]);
    hide AfterEvent, At, Chain, Begun, Carried, BytesOf, Follows, Whole, EndsFrame;
  }

  lemma MoreIsHeld(d: seq<Event>, s: nat, n: nat)
    requires Data(d) && s < n < |d| && Begun(d, s, n + 1) && Holds(Held(d, n), d, s, n)
    ensures Holds(Held(d, n + 1), d, s, n + 1)
  {
    hide AfterEvent, At, Chain, Begun, Carried, BytesOf, Follows, Whole, EndsFrame;
    ChainGrows(d, s, n);
    FollowerContinues(d[n - 1], d[n]);
    EventJoins(Held(d, n), d[n - 1], d[n]);
  }

  /** A message begun among the first n events is the one the buffer holds. */
  lemma {:induction false} BegunIsHeld(d: seq<Event>, s: nat, n: nat)
    requires Data(d) && n <= |d| && Begun(d, s, n)
    ensures Holds(Held(d, n), d, s, n)
    decreases n
  {
    hide *;
    BegunBounds(d, s, n);
    if n == s + 1 {
      OneIsHeld(d, s);
    } else {
      BegunBefore(d, s, n - 1);
      BegunIsHeld(d, s, n - 1);
      MoreIsHeld(d, s, n - 1);
    }
  }

  lemma BegunBefore(d: seq<Event>, s: nat, n: nat)
    requires Data(d) && s < n < |d| && Begun(d, s, n + 1)
    ensures Begun(d, s, n)
  {
    hide Chain;
    ChainGrows(d, s, n);
  }

  /** An active buffer holds a message that was begun. */
  lemma {:induction false} ActiveIsBegun(d: seq<Event>, n: nat) returns (s: nat)
    requires Data(d) && n <= |d| && Held(d, n).active
    ensures Begun(d, s, n)
    decreases n
  {
    hide AfterEvent, At, Chain, Begun, Carried, BytesOf, Follows, Whole, EndsFrame;
    var b, e := Held(d, n - 1), d[n - 1];
    if e.opcode == 1 && e.offset == 0 {
      EventBegins(b, e);
      ChainOfOne(d, n - 1);
      s := n - 1;
    } else {
      if !b.active {
        NothingJoins(b, e);
      }
      s := ActiveIsBegun(d, n - 1);
      BegunBounds(d, s, n - 1);
      BegunIsHeld(d, s, n - 1);
      ChainGrows(d, s, n - 1);
      EventJoins(b, d[n - 2], e);
    }
  }

  /** Events s.. are one whole message: begun at s, and completed by the last event. */
  predicate Sent(d: seq<Event>, s: nat)
    requires forall i :: 0 <= i < |d| ==> d[i].Backed()
  {
    && d != [] && Chain(d, s, |d|) && d[|d| - 1].fin && EndsFrame(d[|d| - 1])
    && forall k :: s <= k < |d| - 1 ==> !(d[k].fin && EndsFrame(d[k]))
  }

  lemma SentIsBegun(d: seq<Event>, s: nat)
    requires Data(d) && d != []
    ensures var n := |d| - 1;
            Sent(d, s) <==> (s == n || Begun(d, s, n)) && Chain(d, s, |d|) && d[n].fin && EndsFrame(d[n])
  {
    hide Follows, Whole, EndsFrame, Carried;
  }

  /**
   * The last of any data events since the buffer was empty reports a message exactly if it completes one: a chain of
   * text frames without gap or overlap, below the limit throughout; and what it reports are the bytes of that chain.
   */
  lemma ReportedIffSent(d: seq<Event>, s: nat)
    requires Data(d) && d != []
    ensures var message := AfterEvent(Held(d, |d| - 1), d[|d| - 1]).1;
            && (Sent(d, s) ==> message == Some(Carried(d, s, |d|)))
            && (message.Some? ==> exists z: nat :: Sent(d, z) && message == Some(Carried(d, z, |d|)))
  {
    hide AfterEvent, At, Chain, Begun, Carried, BytesOf, Follows, Whole, Sent, EndsFrame;
    var n := |d| - 1;
    var b, e := Held(d, n), d[n];
    if Sent(d, s) {
      SentIsReported(d, s);
    }
    if AfterEvent(b, e).1.Some? {
      var z := n;
      if e.opcode == 1 && e.offset == 0 {
        EventBegins(b, e);
        ChainOfOne(d, n);
      } else {
        if !b.active {
          NothingJoins(b, e);
        }
        z := ActiveIsBegun(d, n);
        BegunBounds(d, z, n);
        BegunIsHeld(d, z, n);
        ChainGrows(d, z, n);
        EventJoins(b, d[n - 1], e);
      }
      SentIsBegun(d, z);
      SentIsReported(d, z);
    }
  }

  lemma SentIsReported(d: seq<Event>, s: nat)
    requires Data(d) && d != [] && Sent(d, s)
    ensures AfterEvent(Held(d, |d| - 1), d[|d| - 1]).1 == Some(Carried(d, s, |d|))
  {
    hide AfterEvent, At, Chain, Begun, Carried, BytesOf, Follows, Whole, Sent, EndsFrame;
    var n := |d| - 1;
    SentIsBegun(d, s);
    if s == n {
      ChainOfOne(d, s);
      EventBegins(Held(d, n), d[n]);
    } else {
      BegunBounds(d, s, n);
      ChainGrows(d, s, n);
      BegunIsHeld(d, s, n);
      FollowerContinues(d[n - 1], d[n]);
      EventJoins(Held(d, n), d[n - 1], d[n]);
    }
  }
}
