// A TypeString arrives in chunks, and the poll loop, the pong read, drains and
// command responses all read from the same device: whoever takes a chunk feeds
// the same buffer (hid/device.rs).

module TypeStrings {
  import opened Prelude
  import opened Packets
  import opened HidReader
  import opened Transport

  /** One use of the device: the poll loop or the pong read, a drain, or the wait for a response, with their
      limits on reads (three and twenty, in the daemon). */
  datatype Use = Polls | Drains(limit: nat) | Responds(cmd: byte, limit: nat)

  function Do(use: Use, inbox: seq<Arrival>, mode: Mode, ear: Ear): (seq<Arrival>, Ear) {
    match use
    case Polls => Poll(inbox, mode, ear)
    case Drains(limit) => Drain(inbox, mode, ear, limit)
    case Responds(cmd, limit) => var (_, rest, heard) := Respond(inbox, mode, cmd, ear, None, limit); (rest, heard)
  }

  function DoAll(uses: seq<Use>, inbox: seq<Arrival>, mode: Mode, ear: Ear): (seq<Arrival>, Ear)
    decreases |uses|
  {
    if uses == [] then (inbox, ear)
    else var (rest, heard) := Do(uses[0], inbox, mode, ear); DoAll(uses[1..], rest, mode, heard)
  }

  predicate IsTyped(e: Event) { e.Typed? }

  /** What concerns TypeStrings: the buffer and the strings typed. */
  function Typing(ear: Ear): Ear {
    Ear(ear.buf, Filter(ear.events, IsTyped))
  }

  predicate IsString(a: Arrival, mode: Mode) {
    a.Raw? && Unwire(a.frame, mode).Some? && Unwire(a.frame, mode).value.Command() == TYPE_STRING
  }

  /** One arrival, if it is a TypeString chunk. */
  function Hear(ear: Ear, a: Arrival, mode: Mode): Ear {
    if IsString(a, mode) then Dispatch(ear, Unwire(a.frame, mode).value) else ear
  }

  /** The TypeString chunks among the arrivals, taken in order. */
  function Strings(ear: Ear, arrivals: seq<Arrival>, mode: Mode): Ear
    decreases |arrivals|
  {
    if arrivals == [] then ear else Strings(Hear(ear, arrivals[0], mode), arrivals[1..], mode)
  }

  /** The arrivals are the frames, in order, and anything that is not a TypeString chunk. */
  predicate Carries(arrivals: seq<Arrival>, frames: seq<Frame>, mode: Mode) {
    if arrivals == [] then frames == []
    else if !IsString(arrivals[0], mode) then Carries(arrivals[1..], frames, mode)
    else frames != [] && arrivals[0] == Raw(Wire(frames[0], mode)) && Carries(arrivals[1..], frames[1..], mode)
  }

  // ── No read path loses or reorders a chunk ───────────────────────

  lemma SingleEvent(e: Event)
    ensures Filter([e], IsTyped) == if e.Typed? then [e] else []
  {
  }

  lemma EventsAdded(ear: Ear, more: seq<Event>)
    requires |more| <= 1
    ensures Typing(ear.(events := ear.events + more)).events
         == Typing(ear).events + (if more != [] && more[0].Typed? then more else [])
  {
    FilterConcat(ear.events, more, IsTyped);
    if more != [] {
      assert more == [more[0]];
      SingleEvent(more[0]);
    }
    hide IsTyped;
  }

  lemma StringTypes(ear: Ear, first: bool, last: bool, payload: seq<byte>)
    ensures Typing(FeedString(ear, first, last, payload)) == FeedString(Typing(ear), first, last, payload)
  {
    var buf := (if first then [] else ear.buf) + payload;
    if last && buf != [] { EventsAdded(ear, TypedEvent(buf)); }
    hide Filter;
  }

  lemma DispatchTypes(ear: Ear, p: Packet)
    requires 2 <= p.payloadLen <= MAX_PAYLOAD_SIZE
    ensures Typing(Dispatch(ear, p)) == if p.Command() == TYPE_STRING then Dispatch(Typing(ear), p) else Typing(ear)
  {
    if p.Command() == STATE_REPORT {
      EventsAdded(ear, [StateChanged(p.Payload()[0])]);
    } else if p.Command() == KEY_EVENT {
      EventsAdded(ear, [KeyPressed(Keycode(p.Payload()))]);
    } else if p.Command() == TYPE_STRING {
      StringTypes(ear, p.IsStart(), p.IsEnd(), p.Payload());
    }
    Unit(Typing(ear).events);
    hide Filter, FeedString;
  }

  /** A read leaves to the rest exactly the chunks it did not take. */
  lemma {:induction false} ReadTakes(inbox: seq<Arrival>, mode: Mode, t: Ear)
    ensures var (r, rest) := NextRead(inbox, mode);
            Strings(t, inbox, mode)
            == Strings(if r.Got? && r.packet.Command() == TYPE_STRING then Dispatch(t, r.packet) else t, rest, mode)
    decreases |inbox|
  {
    if inbox != [] && Echo(inbox[0], mode) {
      ReadTakes(inbox[1..], mode, t);
    }
  }

  lemma ReadTakesAndTypes(inbox: seq<Arrival>, mode: Mode, ear: Ear)
    ensures var (r, rest) := NextRead(inbox, mode);
            Strings(Typing(ear), inbox, mode)
              == Strings(Typing(if r.Got? then Dispatch(ear, r.packet) else ear), rest, mode)
    ensures var (r, rest) := NextRead(inbox, mode);
            r.Got? && r.packet.Command() != TYPE_STRING ==>
              Strings(Typing(ear), inbox, mode) == Strings(Typing(ear), rest, mode)
  {
    var (r, rest) := NextRead(inbox, mode);
    ReadTakes(inbox, mode, Typing(ear));
    if r.Got? { DispatchTypes(ear, r.packet); }
    hide Dispatch, NextRead, Strings, Typing;
  }

  /** One read of a drain loses no chunk, and the drain stops there or goes on from there. */
  lemma DrainOnce(inbox: seq<Arrival>, mode: Mode, ear: Ear, n: nat) returns (rest: seq<Arrival>, heard: Ear)
    requires n > 0
    ensures Strings(Typing(ear), inbox, mode) == Strings(Typing(heard), rest, mode)
    ensures Drain(inbox, mode, ear, n) == (rest, heard) || Drain(inbox, mode, ear, n) == Drain(rest, mode, heard, n - 1)
  {
    var r := NextRead(inbox, mode).0;
    rest := NextRead(inbox, mode).1;
    ReadTakesAndTypes(inbox, mode, ear);
    hide NextRead, Strings, Typing, Dispatch;
    heard := ear;
    if r.Got? && DeviceInitiated(r.packet.Command()) && r.packet.Command() != STATE_REPORT {
      heard := Dispatch(ear, r.packet);
    }
  }

  lemma {:induction false} DrainKeepsStrings(inbox: seq<Arrival>, mode: Mode, ear: Ear, n: nat)
    ensures var (rest, heard) := Drain(inbox, mode, ear, n);
            Strings(Typing(ear), inbox, mode) == Strings(Typing(heard), rest, mode)
    decreases n
  {
    if n > 0 {
      var rest, heard := DrainOnce(inbox, mode, ear, n);
      hide Drain, Strings, Typing;
      DrainKeepsStrings(rest, mode, heard, n - 1);
    }
  }

  /** One read towards a response loses no chunk, and the wait ends there or goes on from there. */
  lemma RespondOnce(inbox: seq<Arrival>, mode: Mode, cmd: byte, ear: Ear, payload: Option<seq<byte>>, n: nat)
      returns (rest: seq<Arrival>, heard: Ear, soFar: Option<seq<byte>>)
    requires n > 0
    ensures Strings(Typing(ear), inbox, mode) == Strings(Typing(heard), rest, mode)
    ensures var now := Respond(inbox, mode, cmd, ear, payload, n);
            (now.1 == rest && now.2 == heard) || now == Respond(rest, mode, cmd, heard, soFar, n - 1)
  {
    var r := NextRead(inbox, mode).0;
    rest, heard, soFar := NextRead(inbox, mode).1, ear, payload;
    ReadTakesAndTypes(inbox, mode, ear);
    hide NextRead, Strings, Typing, Dispatch, Outcomes, Extend;
    if r.Got? {
      if DeviceInitiated(r.packet.Command()) {
        heard := Dispatch(ear, r.packet);
      } else if r.packet.Command() == cmd || r.packet.Command() == ERROR {
        soFar := Extend(payload, r.packet);
      }
    }
  }

  lemma {:induction false} RespondKeepsStrings(inbox: seq<Arrival>, mode: Mode, cmd: byte, ear: Ear,
      payload: Option<seq<byte>>, n: nat)
    ensures var (_, rest, heard) := Respond(inbox, mode, cmd, ear, payload, n);
            Strings(Typing(ear), inbox, mode) == Strings(Typing(heard), rest, mode)
    decreases n
  {
    if n > 0 {
      var rest, heard, soFar := RespondOnce(inbox, mode, cmd, ear, payload, n);
      hide Respond, Strings, Typing;
      RespondKeepsStrings(rest, mode, cmd, heard, soFar, n - 1);
    }
  }

  /** Over any sequence of uses, what was typed and what is still to be read make up the same strings. */
  lemma {:induction false} UsesKeepStrings(uses: seq<Use>, inbox: seq<Arrival>, mode: Mode, ear: Ear)
    ensures var (rest, heard) := DoAll(uses, inbox, mode, ear);
            Strings(Typing(ear), inbox, mode) == Strings(Typing(heard), rest, mode)
    decreases |uses|
  {
    hide Strings, Typing, Dispatch, NextRead, Drain, Respond;
    if uses != [] {
      match uses[0] {
        case Polls => ReadTakesAndTypes(inbox, mode, ear);
        case Drains(limit) => DrainKeepsStrings(inbox, mode, ear, limit);
        case Responds(cmd, limit) => RespondKeepsStrings(inbox, mode, cmd, ear, None, limit);
      }
      var (rest, heard) := Do(uses[0], inbox, mode, ear);
      hide Do;
      UsesKeepStrings(uses[1..], rest, mode, heard);
    }
  }

  // ── One message ──────────────────────────────────────────────────

  lemma {:induction false} NoStrings(t: Ear, arrivals: seq<Arrival>, mode: Mode)
    requires forall a :: a in arrivals ==> !IsString(a, mode)
    ensures Strings(t, arrivals, mode) == t
    decreases |arrivals|
  {
    if arrivals != [] { NoStrings(t, arrivals[1..], mode); }
  }

  lemma {:induction false} NothingCarried(t: Ear, arrivals: seq<Arrival>, mode: Mode)
    requires Carries(arrivals, [], mode)
    ensures Strings(t, arrivals, mode) == t
    decreases |arrivals|
  {
    if arrivals != [] { NothingCarried(t, arrivals[1..], mode); }
  }

  lemma PaddedTypes(message: seq<byte>, n: nat)
    requires message != []
    ensures TypedEvent(message + Zeros(n)) == TypedEvent(message)
  {
    TrimPadding(message[1..], n);
    assert (message + Zeros(n))[1..] == message[1..] + Zeros(n);
  }

  /** The chunk that starts, or ends, or goes on with a message. */
  lemma ChunkHeard(t: Ear, a: Arrival, mode: Mode, first: bool, last: bool, chunk: seq<byte>)
    requires |chunk| <= mode.MaxPayload() && a == Raw(Wire(Framed(first, last, TYPE_STRING, chunk), mode))
    ensures IsString(a, mode)
    ensures Hear(t, a, mode) == FeedString(t, first, last, chunk + Zeros(mode.MaxPayload() - |chunk|))
  {
    WireKeepsChunk(first, last, TYPE_STRING, chunk, mode);
    hide FeedString, Unwire, Wire, Framed;
  }

  lemma {:induction false} MessageAssembles(part: seq<byte>, mode: Mode, first: bool, t: Ear, arrivals: seq<Arrival>)
    requires Carries(arrivals, Frames(TYPE_STRING, part, mode, first), mode)
    requires (if first then [] else t.buf) + part != []
    ensures Strings(t, arrivals, mode) == Ear([], t.events + TypedEvent((if first then [] else t.buf) + part))
    decreases |arrivals|
  {
    hide TypedEvent, IsString, Zeros, Framed, Frames, Wire, Unwire, Dispatch;
    var tail := arrivals[1..];
    if !IsString(arrivals[0], mode) {
      assert Hear(t, arrivals[0], mode) == t;
      MessageAssembles(part, mode, first, t, tail);
    } else {
      var begun, size := if first then [] else t.buf, mode.MaxPayload();
      var last := |part| <= size;
      var chunk := if last then part else part[..size];
      FirstOfFrames(TYPE_STRING, part, mode, first);
      ChunkHeard(t, arrivals[0], mode, first, last, chunk);
      hide Hear, Carries;
      assert begun + (chunk + Zeros(size - |chunk|)) == begun + chunk + Zeros(size - |chunk|);
      if last {
        PaddedTypes(begun + part, size - |part|);
        NothingCarried(Hear(t, arrivals[0], mode), tail, mode);
      } else {
        FullChunk(begun, part, size);
        MessageAssembles(part[size..], mode, false, Hear(t, arrivals[0], mode), tail);
      }
    }
  }

  /** A TypeString of any length, its chunks read by any mix of polls, drains and response reads among
      other traffic, types its text once, with its flag and without trailing NULs; nothing at all if
      the text is not UTF-8. The buffer is empty again, whatever was left in it before. */
  lemma TypedOnce(uses: seq<Use>, inbox: seq<Arrival>, mode: Mode, ear: Ear, flags: byte, text: seq<byte>)
    requires Carries(inbox, Build(TYPE_STRING, [flags] + text, mode), mode)
    requires forall a :: a in DoAll(uses, inbox, mode, ear).0 ==> !IsString(a, mode)
    ensures var heard := DoAll(uses, inbox, mode, ear).1;
            && heard.buf == []
            && Filter(heard.events, IsTyped) == Filter(ear.events, IsTyped)
               + (if ValidUtf8(Trim(text)) then [Typed(Trim(text), flags % 2 == 1)] else [])
  {
    var (rest, heard) := DoAll(uses, inbox, mode, ear);
    var message := [flags] + text;
    BuildIsFrames(TYPE_STRING, message, mode);
    assert message[1..] == text && [] + message == message;
    UsesKeepStrings(uses, inbox, mode, ear);
    MessageAssembles(message, mode, true, Typing(ear), inbox);
    NoStrings(Typing(heard), rest, mode);
    hide DoAll, Strings, Carries;
  }
}
