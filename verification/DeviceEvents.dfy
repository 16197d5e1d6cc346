// Key presses and state reports, which the device sends whenever it likes: whoever
// reads the packet passes them on (hid/device.rs, `dispatch_incoming_packet`).

module DeviceEvents {
  import opened Prelude
  import opened Packets
  import opened HidReader
  import opened Transport
  import opened TypeStrings

  // ── One packet ───────────────────────────────────────────────────

  /** The values the device can report: 16-bit keycodes, and one byte of state. */
  predicate InRange(cmd: byte, v: nat) { v < if cmd == KEY_EVENT then 0x1_0000 else 0x100 }

  /** What the device sends for `v`: a keycode goes high byte first. */
  function Signal(cmd: byte, v: nat, mode: Mode): Frame
    requires InRange(cmd, v)
  {
    Wire(Framed(true, true, cmd, if cmd == KEY_EVENT then [v / 0x100, v % 0x100] else [v]), mode)
  }

  function Reported(cmd: byte, v: nat): Event
    requires InRange(cmd, v)
  {
    if cmd == KEY_EVENT then KeyPressed(v) else StateChanged(v)
  }

  /** In either mode every 16-bit keycode and every state byte arrives as itself, as one event, and the TypeString
      buffer is left alone. */
  lemma SignalHeard(cmd: byte, v: nat, mode: Mode, ear: Ear)
    requires cmd in {KEY_EVENT, STATE_REPORT} && InRange(cmd, v)
    ensures var got := Unwire(Signal(cmd, v, mode), mode);
            && got.Some? && got.value.Command() == cmd && got.value.payloadLen == mode.MaxPayload()
            && Dispatch(ear, got.value) == Ear(ear.buf, ear.events + [Reported(cmd, v)])
  {
    var chunk: seq<byte> := if cmd == KEY_EVENT then [v / 0x100, v % 0x100] else [v];
    WireKeepsChunk(true, true, cmd, chunk, mode);
    var got := Unwire(Signal(cmd, v, mode), mode).value;
    assert got.Payload() == chunk + Zeros(mode.MaxPayload() - |chunk|);
    hide Unwire, Wire, Framed;
  }

  /** Pongs and command responses that reach the dispatcher tell nobody anything. */
  lemma RestUnheard(ear: Ear, p: Packet)
    requires 2 <= p.payloadLen <= MAX_PAYLOAD_SIZE && p.Command() !in {KEY_EVENT, STATE_REPORT, TYPE_STRING}
    ensures Dispatch(ear, p) == ear
  {
  }

  // ── Every read path ──────────────────────────────────────────────

  function Kind(e: Event): byte {
    match e
    case StateChanged(_) => STATE_REPORT
    case KeyPressed(_) => KEY_EVENT
    case Typed(_, _) => TYPE_STRING
  }

  /** The events of one kind, in order. */
  function Of(events: seq<Event>, cmd: byte): seq<Event> {
    if events == [] then []
    else if Kind(events[0]) == cmd then [events[0]] + Of(events[1..], cmd)
    else Of(events[1..], cmd)
  }

  lemma {:induction false} OfConcat(a: seq<Event>, b: seq<Event>, cmd: byte)
    ensures Of(a + b, cmd) == Of(a, cmd) + Of(b, cmd)
  {
    if a == [] {
      assert a + b == b;
    } else {
      assert (a + b)[1..] == a[1..] + b;
      OfConcat(a[1..], b, cmd);
    }
  }

  predicate Tells(a: Arrival, mode: Mode, cmd: byte) {
    a.Raw? && Unwire(a.frame, mode).Some? && Unwire(a.frame, mode).value.Command() == cmd
  }

  /** The events of one kind that are still to be read. */
  function Unread(inbox: seq<Arrival>, mode: Mode, cmd: byte): seq<Event> {
    if inbox == [] then []
    else if Tells(inbox[0], mode, cmd) then
      Dispatch(Ear([], []), Unwire(inbox[0].frame, mode).value).events + Unread(inbox[1..], mode, cmd)
    else Unread(inbox[1..], mode, cmd)
  }

  /** What was heard, and then what is still to be read. */
  function Account(inbox: seq<Arrival>, mode: Mode, cmd: byte, ear: Ear): seq<Event> {
    Of(ear.events, cmd) + Unread(inbox, mode, cmd)
  }

  lemma DispatchTells(ear: Ear, p: Packet, cmd: byte)
    requires 2 <= p.payloadLen <= MAX_PAYLOAD_SIZE && cmd in {KEY_EVENT, STATE_REPORT}
    ensures Of(Dispatch(ear, p).events, cmd)
         == Of(ear.events, cmd) + (if p.Command() == cmd then Dispatch(Ear([], []), p).events else [])
  {
    var more := Dispatch(ear, p).events[|ear.events|..];
    assert Dispatch(ear, p).events == ear.events + more;
    OfConcat(ear.events, more, cmd);
    if more != [] { assert more == [more[0]]; }
  }

  lemma {:induction false} ReadLeaves(inbox: seq<Arrival>, mode: Mode, cmd: byte)
    ensures var (r, rest) := NextRead(inbox, mode);
            Unread(inbox, mode, cmd)
            == (if r.Got? && r.packet.Command() == cmd then Dispatch(Ear([], []), r.packet).events else [])
               + Unread(rest, mode, cmd)
    decreases |inbox|
  {
    if inbox != [] && Echo(inbox[0], mode) {
      ReadLeaves(inbox[1..], mode, cmd);
    }
    hide Dispatch;
  }

  /** A read moves what it takes from the one part to the other, if it is passed on. */
  lemma ReadAccounts(inbox: seq<Arrival>, mode: Mode, cmd: byte, ear: Ear)
    requires cmd in {KEY_EVENT, STATE_REPORT}
    ensures var (r, rest) := NextRead(inbox, mode);
            && (r.Got? ==> Account(inbox, mode, cmd, ear) == Account(rest, mode, cmd, Dispatch(ear, r.packet)))
            && (!(r.Got? && r.packet.Command() == cmd) ==>
                  Account(inbox, mode, cmd, ear) == Account(rest, mode, cmd, ear))
  {
    var (r, rest) := NextRead(inbox, mode);
    ReadLeaves(inbox, mode, cmd);
    Unit(Unread(rest, mode, cmd));
    if r.Got? {
      DispatchTells(ear, r.packet, cmd);
      Regroup(Of(ear.events, cmd), Dispatch(Ear([], []), r.packet).events, Unread(rest, mode, cmd));
      Unit(Of(ear.events, cmd));
    }
    hide NextRead, Unread, Dispatch, Of;
  }

  lemma {:induction false} DrainAccounts(inbox: seq<Arrival>, mode: Mode, ear: Ear, n: nat)
    ensures var (rest, heard) := Drain(inbox, mode, ear, n);
            Account(inbox, mode, KEY_EVENT, ear) == Account(rest, mode, KEY_EVENT, heard)
    decreases n
  {
    if n > 0 {
      var (r, rest) := NextRead(inbox, mode);
      ReadAccounts(inbox, mode, KEY_EVENT, ear);
      hide NextRead, Account, Dispatch;
      if r.Got? {
        var passed := DeviceInitiated(r.packet.Command()) && r.packet.Command() != STATE_REPORT;
        DrainAccounts(rest, mode, if passed then Dispatch(ear, r.packet) else ear, n - 1);
      }
    }
  }

  /** One read towards a response loses no event, and the wait ends there or goes on from there. */
  lemma RespondOnce(inbox: seq<Arrival>, mode: Mode, wanted: byte, ear: Ear, payload: Option<seq<byte>>, n: nat,
      cmd: byte) returns (rest: seq<Arrival>, heard: Ear, soFar: Option<seq<byte>>)
    requires n > 0 && cmd in {KEY_EVENT, STATE_REPORT}
    ensures Account(inbox, mode, cmd, ear) == Account(rest, mode, cmd, heard)
    ensures var now := Respond(inbox, mode, wanted, ear, payload, n);
            (now.1 == rest && now.2 == heard) || now == Respond(rest, mode, wanted, heard, soFar, n - 1)
  {
    var r := NextRead(inbox, mode).0;
    rest, heard, soFar := NextRead(inbox, mode).1, ear, payload;
    ReadAccounts(inbox, mode, cmd, ear);
    hide NextRead, Account, Dispatch, Outcomes, Extend;
    if r.Got? {
      if DeviceInitiated(r.packet.Command()) {
        heard := Dispatch(ear, r.packet);
      } else if r.packet.Command() == wanted || r.packet.Command() == ERROR {
        soFar := Extend(payload, r.packet);
      }
    }
  }

  lemma {:induction false} RespondAccounts(inbox: seq<Arrival>, mode: Mode, wanted: byte, ear: Ear,
      payload: Option<seq<byte>>, n: nat, cmd: byte)
    requires cmd in {KEY_EVENT, STATE_REPORT}
    ensures var (_, rest, heard) := Respond(inbox, mode, wanted, ear, payload, n);
            Account(inbox, mode, cmd, ear) == Account(rest, mode, cmd, heard)
    decreases n
  {
    if n > 0 {
      var rest, heard, soFar := RespondOnce(inbox, mode, wanted, ear, payload, n, cmd);
      hide Respond, Account;
      RespondAccounts(rest, mode, wanted, heard, soFar, n - 1, cmd);
    }
  }

  /** Drains read state reports without passing them on; nothing else is ever lost. */
  predicate Passed(cmd: byte, uses: seq<Use>) {
    cmd == KEY_EVENT || (cmd == STATE_REPORT && forall use :: use in uses ==> !use.Drains?)
  }

  /** Over any sequence of device uses, the key presses heard and those still to be read are the same, in order;
      so are the state reports, as long as nothing is drained. */
  lemma {:induction false} UsesKeepEvents(uses: seq<Use>, inbox: seq<Arrival>, mode: Mode, ear: Ear, cmd: byte)
    requires Passed(cmd, uses)
    ensures var (rest, heard) := DoAll(uses, inbox, mode, ear);
            Account(inbox, mode, cmd, ear) == Account(rest, mode, cmd, heard)
    decreases |uses|
  {
    hide Account, Dispatch, NextRead, Drain, Respond;
    if uses != [] {
      match uses[0] {
        case Polls => ReadAccounts(inbox, mode, cmd, ear);
        case Drains(limit) => assert uses[0] in uses; DrainAccounts(inbox, mode, ear, limit);
        case Responds(wanted, limit) => RespondAccounts(inbox, mode, wanted, ear, None, limit, cmd);
      }
      var (rest, heard) := Do(uses[0], inbox, mode, ear);
      hide Do;
      UsesKeepEvents(uses[1..], rest, mode, heard, cmd);
    }
  }

  /** A drain hears no state report. */
  lemma {:induction false} DrainHearsNoState(inbox: seq<Arrival>, mode: Mode, ear: Ear, n: nat)
    ensures Of(Drain(inbox, mode, ear, n).1.events, STATE_REPORT) == Of(ear.events, STATE_REPORT)
    decreases n
  {
    if n > 0 {
      var (r, rest) := NextRead(inbox, mode);
      hide NextRead, Of, Dispatch;
      if r.Got? {
        DispatchTells(ear, r.packet, STATE_REPORT);
        var passed := DeviceInitiated(r.packet.Command()) && r.packet.Command() != STATE_REPORT;
        DrainHearsNoState(rest, mode, if passed then Dispatch(ear, r.packet) else ear, n - 1);
      }
    }
  }

  // ── From the device to the daemon ────────────────────────────────

  /** The arrivals are the signals for `values`, in order, among any others. */
  predicate Signals(arrivals: seq<Arrival>, mode: Mode, cmd: byte, values: seq<nat>) {
    if arrivals == [] then values == []
    else if !Tells(arrivals[0], mode, cmd) then Signals(arrivals[1..], mode, cmd, values)
    else
      && values != [] && InRange(cmd, values[0]) && arrivals[0] == Raw(Signal(cmd, values[0], mode))
      && Signals(arrivals[1..], mode, cmd, values[1..])
  }

  /** The events of the reports, one each. */
  function Reports(cmd: byte, values: seq<nat>): seq<Event> {
    if values == [] || !InRange(cmd, values[0]) then []
    else [Reported(cmd, values[0])] + Reports(cmd, values[1..])
  }

  lemma {:induction false} SignalsUnread(arrivals: seq<Arrival>, mode: Mode, cmd: byte, values: seq<nat>)
    requires cmd in {KEY_EVENT, STATE_REPORT} && Signals(arrivals, mode, cmd, values)
    ensures Unread(arrivals, mode, cmd) == Reports(cmd, values)
    decreases |arrivals|
  {
    if arrivals != [] {
      hide Dispatch, Signal, Unwire, Tells, Reported;
      if Tells(arrivals[0], mode, cmd) {
        SignalHeard(cmd, values[0], mode, Ear([], []));
        Unit([Reported(cmd, values[0])]);
        SignalsUnread(arrivals[1..], mode, cmd, values[1..]);
      } else {
        SignalsUnread(arrivals[1..], mode, cmd, values);
      }
    }
  }

  lemma {:induction false} NothingUnread(arrivals: seq<Arrival>, mode: Mode, cmd: byte)
    requires forall a :: a in arrivals ==> !Tells(a, mode, cmd)
    ensures Unread(arrivals, mode, cmd) == []
    decreases |arrivals|
  {
    if arrivals != [] { NothingUnread(arrivals[1..], mode, cmd); }
  }

  /** The keys pressed on the device, whoever reads their packets, polls, drains or response reads among other
      traffic, reach the daemon each once, in order, with the keycodes they were sent with; so do the states it
      reports, if nothing is drained. */
  lemma EventsArrive(uses: seq<Use>, inbox: seq<Arrival>, mode: Mode, ear: Ear, cmd: byte, values: seq<nat>)
    requires Passed(cmd, uses) && Signals(inbox, mode, cmd, values)
    requires forall a :: a in DoAll(uses, inbox, mode, ear).0 ==> !Tells(a, mode, cmd)
    ensures Of(DoAll(uses, inbox, mode, ear).1.events, cmd) == Of(ear.events, cmd) + Reports(cmd, values)
  {
    var (rest, heard) := DoAll(uses, inbox, mode, ear);
    UsesKeepEvents(uses, inbox, mode, ear, cmd);
    SignalsUnread(inbox, mode, cmd, values);
    NothingUnread(rest, mode, cmd);
    hide DoAll, Unread, Of, Signals;
  }
}
