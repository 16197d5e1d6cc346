// Reading from the device (hid/device.rs): reassembly of command responses with
// unsolicited packets in between, and the TypeString buffer that every read path
// feeds. Timeouts and read errors are part of the input.

module HidReader {
  import opened Prelude
  import opened Packets

  /** What the HID interface delivers next: a packet, nothing before the timeout, or an error. */
  datatype Arrival = Raw(frame: Frame) | Silence | Fault

  datatype Read = Got(packet: Packet) | Quiet | Broken

  datatype Event =
    | StateChanged(state: byte)
    | KeyPressed(keycode: nat)
    | Typed(text: seq<byte>, sendEnter: bool)

  datatype Outcome =
    | Reply(status: byte, data: seq<byte>)
    | FirmwareError(code: byte)
    | TimedOut
    | ReadError
    | TooMany

  /** The shared TypeString buffer, and the events sent so far. */
  datatype Ear = Ear(buf: seq<byte>, events: seq<Event>)

  const RESPONSE_LIMIT: nat := 20
  const DRAIN_LIMIT: nat := 3

  // ── UTF-8 (table 3-7 of the Unicode Standard) ────────────────────

  predicate Continues(b: byte) { 0x80 <= b < 0xC0 }

  predicate ValidUtf8(s: seq<byte>)
    decreases |s|
  {
    if s == [] then true
    else if s[0] < 0x80 then ValidUtf8(s[1..])
    else if 0xC2 <= s[0] <= 0xDF then |s| >= 2 && Continues(s[1]) && ValidUtf8(s[2..])
    else if 0xE0 <= s[0] <= 0xEF then
      && |s| >= 3 && Continues(s[1]) && Continues(s[2])
      && (s[0] == 0xE0 ==> s[1] >= 0xA0) && (s[0] == 0xED ==> s[1] < 0xA0) && ValidUtf8(s[3..])
    else
      && 0xF0 <= s[0] <= 0xF4 && |s| >= 4 && Continues(s[1]) && Continues(s[2]) && Continues(s[3])
      && (s[0] == 0xF0 ==> s[1] >= 0x90) && (s[0] == 0xF4 ==> s[1] < 0x90) && ValidUtf8(s[4..])
  }

  // ── Dispatch ─────────────────────────────────────────────────────

  predicate DeviceInitiated(cmd: byte) {
    cmd == STATE_REPORT || cmd == KEY_EVENT || cmd == TYPE_STRING || cmd == PING
  }

  /** The event of a whole TypeString message; none when its text is not UTF-8. */
  function TypedEvent(message: seq<byte>): seq<Event>
    requires message != []
  {
    var text := Trim(message[1..]);
    if ValidUtf8(text) then [Typed(text, message[0] % 2 == 1)] else []
  }

  function FeedString(ear: Ear, first: bool, last: bool, payload: seq<byte>): Ear {
    var buf := (if first then [] else ear.buf) + payload;
    if last && buf != [] then Ear([], ear.events + TypedEvent(buf)) else ear.(buf := buf)
  }

  /** The 16-bit keycode of a KeyEvent, high byte first. */
  function Keycode(payload: seq<byte>): nat
    requires |payload| >= 2
  {
    payload[0] as nat * 0x100 + payload[1]
  }

  /** `dispatch_incoming_packet` */
  function Dispatch(ear: Ear, p: Packet): Ear
    requires 2 <= p.payloadLen <= MAX_PAYLOAD_SIZE
  {
    if p.Command() == STATE_REPORT then ear.(events := ear.events + [StateChanged(p.Payload()[0])])
    else if p.Command() == KEY_EVENT then ear.(events := ear.events + [KeyPressed(Keycode(p.Payload()))])
    else if p.Command() == TYPE_STRING then FeedString(ear, p.IsStart(), p.IsEnd(), p.Payload())
    else ear
  }

  // ── Read paths ───────────────────────────────────────────────────

  /** `read_raw_packet`: the echoes of VIA are skipped while the timeout runs. */
  function NextRead(inbox: seq<Arrival>, mode: Mode): (r: (Read, seq<Arrival>))
    ensures r.0.Got? ==> r.0.packet.payloadLen == mode.MaxPayload()
    ensures |r.1| <= |inbox| && (r.0.Got? ==> |r.1| < |inbox|)
    ensures r.1 == inbox[|inbox| - |r.1|..]
  {
    if inbox == [] then (Quiet, [])
    else match inbox[0]
         case Silence => (Quiet, inbox[1..])
         case Fault => (Broken, inbox[1..])
         case Raw(f) =>
           match Unwire(f, mode)
           case None => NextRead(inbox[1..], mode)
           case Some(p) => (Got(p), inbox[1..])
  }

  /** One packet read and dispatched, as the poll loop and the pong read do. */
  function Poll(inbox: seq<Arrival>, mode: Mode, ear: Ear): (seq<Arrival>, Ear) {
    var (r, rest) := NextRead(inbox, mode);
    (rest, if r.Got? then Dispatch(ear, r.packet) else ear)
  }

  /** `drain_response`, with `n` reads left: state reports are consumed silently. */
  function Drain(inbox: seq<Arrival>, mode: Mode, ear: Ear, n: nat): (r: (seq<Arrival>, Ear))
    ensures |r.0| <= |inbox|
    decreases n
  {
    if n == 0 then (inbox, ear)
    else
      var (r, rest) := NextRead(inbox, mode);
      if !r.Got? then (rest, ear)
      else
        var cmd := r.packet.Command();
        var heard := if DeviceInitiated(cmd) && cmd != STATE_REPORT then Dispatch(ear, r.packet) else ear;
        if r.packet.IsEnd() && !DeviceInitiated(cmd) then (rest, heard) else Drain(rest, mode, heard, n - 1)
  }

  /** The outcome of a response whose payload was put together as `payload`. */
  function Outcomes(cmd: byte, payload: seq<byte>): Outcome {
    var p := Trim(payload);
    var status := if p == [] then 0 else p[0];
    if cmd == ERROR then FirmwareError(status)
    else Reply(status, if |p| > 1 then p[1..] else [])
  }

  /** A START begins the payload anew; what comes before the first START is not part of it. */
  function Extend(payload: Option<seq<byte>>, p: Packet): Option<seq<byte>>
    requires p.payloadLen <= MAX_PAYLOAD_SIZE
  {
    if p.IsStart() then Some(p.Payload())
    else if payload.Some? then Some(payload.value + p.Payload()) else None
  }

  /** `read_response_with_timeout`, with `n` reads left and the payload so far, if a START was seen. */
  function Respond(inbox: seq<Arrival>, mode: Mode, cmd: byte, ear: Ear, payload: Option<seq<byte>>,
      n: nat): (r: (Outcome, seq<Arrival>, Ear))
    ensures |r.1| <= |inbox|
    decreases n
  {
    if n == 0 then (TooMany, inbox, ear)
    else
      var (r, rest) := NextRead(inbox, mode);
      match r
      case Quiet => (TimedOut, rest, ear)
      case Broken => (ReadError, rest, ear)
      case Got(p) =>
        if DeviceInitiated(p.Command()) then Respond(rest, mode, cmd, Dispatch(ear, p), payload, n - 1)
        else if p.Command() != cmd && p.Command() != ERROR then Respond(rest, mode, cmd, ear, payload, n - 1)
        else
          var soFar := Extend(payload, p);
          if p.IsEnd() && soFar.Some? then (Outcomes(p.Command(), soFar.value), rest, ear)
          else Respond(rest, mode, cmd, ear, soFar, n - 1)
  }

  // ── The reader, as the daemon runs it ────────────────────────────

  class Reader {
    var inbox: seq<Arrival>
    var typeString: seq<byte>
    var events: seq<Event>
    const mode: Mode

    ghost function View(): Ear
      reads this
    {
      Ear(typeString, events)
    }

    constructor (inbox: seq<Arrival>, mode: Mode)
      ensures this.inbox == inbox && this.mode == mode && View() == Ear([], [])
    {
      this.inbox, this.mode := inbox, mode;
      typeString, events := [], [];
    }

    method ReadRawPacket() returns (r: Read)
      modifies `inbox
      ensures (r, inbox) == NextRead(old(inbox), mode)
    {
      while inbox != []
        invariant NextRead(inbox, mode) == NextRead(old(inbox), mode)
        decreases |inbox|
      {
        var next := inbox[0];
        inbox := inbox[1..];
        match next {
          case Silence => return Quiet;
          case Fault => return Broken;
          case Raw(f) =>
            if mode.Standalone? {
              return Got(Packet(f, MAX_PAYLOAD_SIZE));
            }
            if f[0] == VIAL_PREFIX {
              return Got(Packet(f[1..] + [0], mode.MaxPayload()));
            }
        }
      }
      return Quiet;
    }

    method DispatchIncoming(p: Packet)
      requires 2 <= p.payloadLen <= MAX_PAYLOAD_SIZE
      modifies `typeString, `events
      ensures View() == Dispatch(old(View()), p)
    {
      var payload := p.Payload();
      if p.Command() == STATE_REPORT {
        events := events + [StateChanged(payload[0])];
      } else if p.Command() == KEY_EVENT {
        events := events + [KeyPressed(Keycode(payload))];
      } else if p.Command() == TYPE_STRING {
        if p.IsStart() { typeString := []; }
        typeString := typeString + payload;
        if p.IsEnd() && typeString != [] {
          var text := typeString[1..];
          while text != [] && text[|text| - 1] == 0
            invariant Trim(text) == Trim(typeString[1..])
            decreases |text|
          {
            text := text[..|text| - 1];
          }
          if ValidUtf8(text) {
            events := events + [Typed(text, typeString[0] % 2 == 1)];
          }
          typeString := [];
        }
      }
    }

    method PollOnce()
      modifies this
      ensures (inbox, View()) == Poll(old(inbox), mode, old(View()))
    {
      var r := ReadRawPacket();
      if r.Got? { DispatchIncoming(r.packet); }
    }

    method DrainResponse()
      modifies this
      ensures (inbox, View()) == Drain(old(inbox), mode, old(View()), DRAIN_LIMIT)
    {
      hide Dispatch, NextRead;
      var n := 0;
      while n < DRAIN_LIMIT
        invariant n <= DRAIN_LIMIT
        invariant Drain(inbox, mode, View(), DRAIN_LIMIT - n) == Drain(old(inbox), mode, old(View()), DRAIN_LIMIT)
      {
        var r := ReadRawPacket();
        if !r.Got? {
          return;
        }
        var initiated := DeviceInitiated(r.packet.Command());
        if initiated && r.packet.Command() != STATE_REPORT {
          DispatchIncoming(r.packet);
        }
        if r.packet.IsEnd() && !initiated {
          return;
        }
        n := n + 1;
      }
    }

    method ReadResponse(cmd: byte) returns (o: Outcome)
      modifies this
      ensures (o, inbox, View()) == Respond(old(inbox), mode, cmd, old(View()), None, RESPONSE_LIMIT)
    {
      hide Dispatch, NextRead, Outcomes, DeviceInitiated;
      var payload: seq<byte>, gotStart, n := [], false, 0;
      while n < RESPONSE_LIMIT
        invariant n <= RESPONSE_LIMIT
        invariant Respond(inbox, mode, cmd, View(), if gotStart then Some(payload) else None, RESPONSE_LIMIT - n)
               == Respond(old(inbox), mode, cmd, old(View()), None, RESPONSE_LIMIT)
      {
        n := n + 1;
        var r := ReadRawPacket();
        if r.Quiet? {
          return TimedOut;
        }
        if r.Broken? {
          return ReadError;
        }
        var p := r.packet;
        if DeviceInitiated(p.Command()) {
          DispatchIncoming(p);
          continue;
        }
        if p.Command() != cmd && p.Command() != ERROR {
          continue;
        }
        ghost var soFar := Extend(if gotStart then Some(payload) else None, p);
        if p.IsStart() {
          gotStart, payload := true, [];
        }
        if gotStart {
          payload := payload + p.Payload();
        }
        assert [] + p.Payload() == p.Payload();
        assert soFar == if gotStart then Some(payload) else None;
        if p.IsEnd() && gotStart {
          o := TrimmedOutcome(p.Command(), payload);
          return;
        }
      }
      return TooMany;
    }

    /** The end of `read_response_with_timeout`: trim, and tell an error from a reply. */
    static method TrimmedOutcome(cmd: byte, whole: seq<byte>) returns (o: Outcome)
      ensures o == Outcomes(cmd, whole)
    {
      var payload := whole;
      while payload != [] && payload[|payload| - 1] == 0
        invariant Trim(payload) == Trim(whole)
        decreases |payload|
      {
        payload := payload[..|payload| - 1];
      }
      var status := if payload == [] then 0 else payload[0];
      if cmd == ERROR {
        return FirmwareError(status);
      }
      return Reply(status, if |payload| > 1 then payload[1..] else []);
    }
  }
}
