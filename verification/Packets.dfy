// Framing of HID messages (hid/protocol.rs) and the wire form of a packet in
// either protocol mode (hid/device.rs, `send_single_packet`, `read_raw_packet`).

module Packets {
  import opened Prelude

  const PACKET_SIZE: nat := 32
  const HEADER_SIZE: nat := 2
  const MAX_PAYLOAD_SIZE: nat := 30
  const VIAL_PREFIX: byte := 0x80
  const FLAG_START: byte := 0x80
  const FLAG_END: byte := 0x40

  const PING: byte := 0x02
  const STATE_REPORT: byte := 0x10
  const TYPE_STRING: byte := 0x11
  const KEY_EVENT: byte := 0x12
  const ERROR: byte := 0xFF

  datatype Mode = Standalone | Vial {
    function MaxPayload(): (n: nat)
      ensures 0 < n <= MAX_PAYLOAD_SIZE
    {
      if Standalone? then MAX_PAYLOAD_SIZE else MAX_PAYLOAD_SIZE - 1
    }
  }

  function Zeros(n: nat): (z: seq<byte>)
    ensures |z| == n && forall k :: 0 <= k < n ==> z[k] == 0
  {
    seq(n, _ => 0)
  }

  /** Thirty-two bytes, as they travel. */
  type Frame = f: seq<byte> | |f| == PACKET_SIZE witness Zeros(PACKET_SIZE)

  /** A received packet: a frame, and how many of its bytes after the header are payload. */
  datatype Packet = Packet(frame: Frame, payloadLen: nat) {
    predicate IsStart() { frame[0] >= FLAG_START }
    predicate IsEnd() { (frame[0] / FLAG_END) % 2 == 1 }
    function Command(): byte { frame[1] }
    function Payload(): seq<byte>
      requires payloadLen <= MAX_PAYLOAD_SIZE
    {
      frame[HEADER_SIZE..HEADER_SIZE + payloadLen]
    }
  }

  function Framed(first: bool, last: bool, cmd: byte, chunk: seq<byte>): Frame
    requires |chunk| <= MAX_PAYLOAD_SIZE
  {
    var flags: byte := (if first then FLAG_START else 0) + (if last then FLAG_END else 0);
    [flags, cmd] + chunk + Zeros(MAX_PAYLOAD_SIZE - |chunk|)
  }

  /** The payload cut into pieces of `size` bytes; an empty payload is one empty piece. */
  function Chunks(payload: seq<byte>, size: nat): (r: seq<seq<byte>>)
    requires size > 0
    ensures r != [] && forall k :: 0 <= k < |r| ==> |r[k]| <= size
    decreases |payload|
  {
    if |payload| <= size then [payload] else [payload[..size]] + Chunks(payload[size..], size)
  }

  /** The frames of a message, or of its rest when its first frame is already out. */
  function Frames(cmd: byte, payload: seq<byte>, mode: Mode, first: bool): (r: seq<Frame>)
    ensures r != []
    decreases |payload|
  {
    var size := mode.MaxPayload();
    if |payload| <= size then [Framed(first, true, cmd, payload)]
    else [Framed(first, false, cmd, payload[..size])] + Frames(cmd, payload[size..], mode, false)
  }

  /** `build_chunked_packets`: number the chunks, flag the first and the last. */
  function Build(cmd: byte, payload: seq<byte>, mode: Mode): seq<Frame> {
    var chunks := Chunks(payload, mode.MaxPayload());
    seq(|chunks|, k requires 0 <= k < |chunks| => Framed(k == 0, k == |chunks| - 1, cmd, chunks[k]))
  }

  /** A packet on its way out: in VIAL mode a prefix is put before it and its last byte falls off. */
  function Wire(f: Frame, mode: Mode): Frame {
    if mode.Vial? then [VIAL_PREFIX] + f[..PACKET_SIZE - 1] else f
  }

  /** A packet on its way in; none for an echo that VIA sends after every host packet. */
  function Unwire(raw: Frame, mode: Mode): Option<Packet> {
    if mode.Standalone? then Some(Packet(raw, MAX_PAYLOAD_SIZE))
    else if raw[0] != VIAL_PREFIX then None
    else Some(Packet(raw[1..] + [0], mode.MaxPayload()))
  }

  lemma {:induction false} BuildRest(cmd: byte, payload: seq<byte>, mode: Mode, first: bool)
    ensures var chunks := Chunks(payload, mode.MaxPayload());
            Frames(cmd, payload, mode, first)
            == seq(|chunks|, k requires 0 <= k < |chunks| => Framed(first && k == 0, k == |chunks| - 1, cmd, chunks[k]))
    decreases |payload|
  {
    var size := mode.MaxPayload();
    if |payload| > size {
      BuildRest(cmd, payload[size..], mode, false);
    }
  }

  /** The chunk pipeline builds the same frames as cutting the message off front to back. */
  lemma BuildIsFrames(cmd: byte, payload: seq<byte>, mode: Mode)
    ensures Build(cmd, payload, mode) == Frames(cmd, payload, mode, true)
  {
    BuildRest(cmd, payload, mode, true);
    assert Build(cmd, payload, mode) == Frames(cmd, payload, mode, true);
  }

  /** In either mode a chunk that fits arrives whole, with its flags and command, and zeros after it:
      the byte VIAL drops carries nothing. */
  lemma WireKeepsChunk(first: bool, last: bool, cmd: byte, chunk: seq<byte>, mode: Mode)
    requires |chunk| <= mode.MaxPayload()
    ensures var got := Unwire(Wire(Framed(first, last, cmd, chunk), mode), mode);
            && got.Some? && got.value.payloadLen == mode.MaxPayload()
            && got.value.IsStart() == first && got.value.IsEnd() == last && got.value.Command() == cmd
            && got.value.Payload() == chunk + Zeros(mode.MaxPayload() - |chunk|)
  {
    var f := Framed(first, last, cmd, chunk);
    var got := Unwire(Wire(f, mode), mode).value;
    assert got.frame[..PACKET_SIZE - 1] == f[..PACKET_SIZE - 1];
    assert got.Payload() == f[HEADER_SIZE..HEADER_SIZE + mode.MaxPayload()];
  }

  /** What the VIAL prefix pushes off the wire is always padding. */
  lemma VialDropsOnlyPadding(cmd: byte, payload: seq<byte>, k: nat)
    requires k < |Build(cmd, payload, Vial)|
    ensures var f := Build(cmd, payload, Vial)[k];
        f[PACKET_SIZE - 1] == 0 && Unwire(Wire(f, Vial), Vial).value.frame == f
  {
    var f := Build(cmd, payload, Vial)[k];
    assert f[..PACKET_SIZE - 1] + [0] == f;
  }

  /** Trailing zeros off. */
  function Trim(s: seq<byte>): (r: seq<byte>)
    ensures r <= s && (r == [] || r[|r| - 1] != 0)
    ensures forall k :: |r| <= k < |s| ==> s[k] == 0
  {
    if s != [] && s[|s| - 1] == 0 then Trim(s[..|s| - 1]) else s
  }

  lemma TrimIsLongest(s: seq<byte>, r: seq<byte>)
    requires r <= s && (r == [] || r[|r| - 1] != 0) && forall k :: |r| <= k < |s| ==> s[k] == 0
    ensures r == Trim(s)
  {
  }

  lemma TrimPadding(s: seq<byte>, n: nat)
    ensures Trim(s + Zeros(n)) == Trim(s)
  {
    TrimIsLongest(s + Zeros(n), Trim(s));
  }

  /** `HidPacket`: a packet under construction. */
  class HidPacket {
    const data: array<byte>
    var payloadLen: nat

    ghost predicate Valid()
      reads this
    {
      data.Length == PACKET_SIZE && payloadLen <= MAX_PAYLOAD_SIZE
    }

    constructor (flags: byte, cmd: byte)
      ensures Valid() && fresh(data) && payloadLen == MAX_PAYLOAD_SIZE
      ensures data[..] == [flags, cmd] + Zeros(MAX_PAYLOAD_SIZE)
    {
      data := new byte[PACKET_SIZE](i => if i == 0 then flags else if i == 1 then cmd else 0);
      payloadLen := MAX_PAYLOAD_SIZE;
    }

    constructor FromBytes(bytes: seq<byte>)
      ensures Valid() && fresh(data) && payloadLen == MAX_PAYLOAD_SIZE
      ensures |bytes| >= PACKET_SIZE ==> data[..] == bytes[..PACKET_SIZE]
      ensures |bytes| < PACKET_SIZE ==> data[..] == bytes + Zeros(PACKET_SIZE - |bytes|)
    {
      data := new byte[PACKET_SIZE](i requires 0 <= i => if i < |bytes| then bytes[i] else 0);
      payloadLen := MAX_PAYLOAD_SIZE;
    }

    method LimitPayload(len: nat)
      requires Valid()
      modifies this
      ensures Valid() && payloadLen == if len < MAX_PAYLOAD_SIZE then len else MAX_PAYLOAD_SIZE
    {
      payloadLen := if len < MAX_PAYLOAD_SIZE then len else MAX_PAYLOAD_SIZE;
    }

    /** Truncates what does not fit and zeroes what is left of an earlier payload. */
    method SetPayload(payload: seq<byte>)
      requires Valid()
      modifies data
      ensures var len := if |payload| < MAX_PAYLOAD_SIZE then |payload| else MAX_PAYLOAD_SIZE;
              data[..] == old(data[..HEADER_SIZE]) + payload[..len] + Zeros(MAX_PAYLOAD_SIZE - len)
    {
      var len := if |payload| < MAX_PAYLOAD_SIZE then |payload| else MAX_PAYLOAD_SIZE;
      var i := HEADER_SIZE;
      while i < HEADER_SIZE + len
        invariant HEADER_SIZE <= i <= HEADER_SIZE + len
        invariant data[..HEADER_SIZE] == old(data[..HEADER_SIZE]) && data[HEADER_SIZE..i] == payload[..i - HEADER_SIZE]
      {
        data[i] := payload[i - HEADER_SIZE];
        i := i + 1;
      }
      while i < PACKET_SIZE
        invariant HEADER_SIZE + len <= i <= PACKET_SIZE
        invariant data[..HEADER_SIZE] == old(data[..HEADER_SIZE])
            && data[HEADER_SIZE..HEADER_SIZE + len] == payload[..len]
        invariant forall k :: HEADER_SIZE + len <= k < i ==> data[k] == 0
      {
        data[i] := 0;
        i := i + 1;
      }
      assert data[..] == data[..HEADER_SIZE] + data[HEADER_SIZE..HEADER_SIZE + len] + data[HEADER_SIZE + len..];
    }
  }

  /** A command packet filled with one chunk is the frame of that chunk. */
  method PackChunk(first: bool, last: bool, cmd: byte, chunk: seq<byte>) returns (p: HidPacket)
    requires |chunk| <= MAX_PAYLOAD_SIZE
    ensures fresh(p) && fresh(p.data) && p.Valid() && p.data[..] == Framed(first, last, cmd, chunk)
  {
    var flags: byte := 0;
    if first { flags := flags + FLAG_START; }
    if last { flags := flags + FLAG_END; }
    p := new HidPacket(flags, cmd);
    p.SetPayload(chunk);
    assert chunk[..|chunk|] == chunk;
  }
}
