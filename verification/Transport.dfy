// What the framing and the read paths achieve together: a response survives
// whatever arrives in between, and a TypeString survives whoever reads its chunks.

module Transport {
  import opened Prelude
  import opened Packets
  import opened HidReader

  predicate Echo(a: Arrival, mode: Mode) { a.Raw? && Unwire(a.frame, mode).None? }

  /** A packet that is not part of a response to `cmd`. */
  predicate Unsolicited(a: Arrival, mode: Mode, cmd: byte) {
    a.Raw? && Unwire(a.frame, mode).Some? && Unwire(a.frame, mode).value.Command() !in {cmd, ERROR}
  }

  /** `pre` delivers `frames`, in order, with echoes and unsolicited packets in between, and ends with the last of
      them. */
  predicate Delivers(pre: seq<Arrival>, frames: seq<Frame>, mode: Mode, cmd: byte) {
    if frames == [] then pre == []
    else
      && pre != []
      && if Echo(pre[0], mode) || Unsolicited(pre[0], mode, cmd) then Delivers(pre[1..], frames, mode, cmd)
         else pre[0] == Raw(Wire(frames[0], mode)) && Delivers(pre[1..], frames[1..], mode, cmd)
  }

  /** How many of the arrivals count as reads. */
  function Reads(pre: seq<Arrival>, mode: Mode): nat {
    if pre == [] then 0 else (if Echo(pre[0], mode) then 0 else 1) + Reads(pre[1..], mode)
  }

  /** One arrival, if it is something the device sends on its own. */
  function Noticed(ear: Ear, a: Arrival, mode: Mode): Ear {
    if a.Raw? && Unwire(a.frame, mode).Some? && DeviceInitiated(Unwire(a.frame, mode).value.Command())
    then Dispatch(ear, Unwire(a.frame, mode).value) else ear
  }

  /** The buffer and events after the unsolicited packets of `pre`. */
  function Overheard(ear: Ear, pre: seq<Arrival>, mode: Mode): Ear
    decreases |pre|
  {
    if pre == [] then ear else Overheard(Noticed(ear, pre[0], mode), pre[1..], mode)
  }

  lemma EchoSkipped(inbox: seq<Arrival>, mode: Mode, cmd: byte, ear: Ear, payload: Option<seq<byte>>, n: nat)
    requires inbox != [] && Echo(inbox[0], mode)
    ensures Respond(inbox, mode, cmd, ear, payload, n) == Respond(inbox[1..], mode, cmd, ear, payload, n) || n == 0
  {
    assert NextRead(inbox, mode) == NextRead(inbox[1..], mode);
  }

  lemma UnsolicitedPassed(inbox: seq<Arrival>, mode: Mode, cmd: byte, ear: Ear, payload: Option<seq<byte>>, n: nat)
    requires inbox != [] && Unsolicited(inbox[0], mode, cmd) && n > 0 && !DeviceInitiated(cmd)
    ensures Respond(inbox, mode, cmd, ear, payload, n)
         == Respond(inbox[1..], mode, cmd, Noticed(ear, inbox[0], mode), payload, n - 1)
  {
    var p := Unwire(inbox[0].frame, mode).value;
    assert NextRead(inbox, mode) == (Got(p), inbox[1..]);
    hide Dispatch, NextRead, Unwire;
  }

  /** A response to `cmd` comes with its command, or says that it failed. */
  predicate Answers(from: byte, cmd: byte) {
    !DeviceInitiated(cmd) && (from == cmd || from == ERROR)
  }

  /** One frame of the response, with the payload it brings. */
  lemma FrameTaken(inbox: seq<Arrival>, mode: Mode, cmd: byte, ear: Ear, payload: Option<seq<byte>>, n: nat,
                   from: byte, first: bool, last: bool, chunk: seq<byte>)
    requires Answers(from, cmd) && n > 0 && |chunk| <= mode.MaxPayload() && (first || payload.Some?)
    requires inbox != [] && inbox[0] == Raw(Wire(Framed(first, last, from, chunk), mode))
    ensures var soFar := (if first then [] else payload.value) + chunk + Zeros(mode.MaxPayload() - |chunk|);
            Respond(inbox, mode, cmd, ear, payload, n)
            == if last then (Outcomes(from, soFar), inbox[1..], ear)
              else Respond(inbox[1..], mode, cmd, ear, Some(soFar), n - 1)
  {
    WireKeepsChunk(first, last, from, chunk, mode);
    var p := Unwire(inbox[0].frame, mode).value;
    assert NextRead(inbox, mode) == (Got(p), inbox[1..]);
    var soFar := (if first then [] else payload.value) + chunk + Zeros(mode.MaxPayload() - |chunk|);
    assert [] + p.Payload() == p.Payload();
    assert (if first then [] else payload.value) + (chunk + Zeros(mode.MaxPayload() - |chunk|)) == soFar;
    assert Extend(payload, p) == Some(soFar);
    hide Dispatch, NextRead, Unwire, Outcomes, Framed, Wire, Extend;
  }

  /** The rest of a response, whatever is in between, completes the payload. */
  lemma {:induction false} RestAssembles(cmd: byte, from: byte, part: seq<byte>, mode: Mode, first: bool,
      soFar: Option<seq<byte>>, pre: seq<Arrival>, rest: seq<Arrival>, ear: Ear, n: nat)
    requires Answers(from, cmd) && (first || soFar.Some?)
    requires Delivers(pre, Frames(from, part, mode, first), mode, cmd) && Reads(pre, mode) <= n
    ensures Respond(pre + rest, mode, cmd, ear, soFar, n)
         == (Outcomes(from, (if first then [] else soFar.value) + part), rest, Overheard(ear, pre, mode))
    decreases |pre|, 1
  {
    hide Answers, DeviceInitiated, Respond, Frames, Outcomes, Dispatch, Unwire, Noticed, Overheard, Delivers, Reads,
      Wire, Framed;
    LeadDelivers(pre, Frames(from, part, mode, first), mode, cmd);
    if Echo(pre[0], mode) || Unsolicited(pre[0], mode, cmd) {
      var left := LeadPassed(cmd, from, mode, soFar, pre, rest, ear, n);
      RestAssembles(cmd, from, part, mode, first, soFar, pre[1..], rest, Noticed(ear, pre[0], mode), left);
    } else {
      NextFrameAssembles(cmd, from, part, mode, first, soFar, pre, rest, ear, n);
    }
  }

  /** An arrival that is no part of the response is passed over. */
  lemma LeadPassed(cmd: byte, from: byte, mode: Mode, soFar: Option<seq<byte>>, pre: seq<Arrival>, rest: seq<Arrival>,
      ear: Ear, n: nat) returns (left: nat)
    requires Answers(from, cmd) && pre != [] && 0 < Reads(pre, mode) <= n
    requires Echo(pre[0], mode) || Unsolicited(pre[0], mode, cmd)
    ensures Reads(pre[1..], mode) <= left
    ensures Respond(pre + rest, mode, cmd, ear, soFar, n)
         == Respond(pre[1..] + rest, mode, cmd, Noticed(ear, pre[0], mode), soFar, left)
    ensures Overheard(ear, pre, mode) == Overheard(Noticed(ear, pre[0], mode), pre[1..], mode)
  {
    LeadArrival(pre, rest);
    OverheardHead(ear, pre, mode);
    hide Respond, Dispatch, Overheard;
    left := if Echo(pre[0], mode) then n else n - 1;
    if Echo(pre[0], mode) {
      EchoSkipped(pre + rest, mode, cmd, ear, soFar, n);
    } else {
      UnsolicitedPassed(pre + rest, mode, cmd, ear, soFar, n);
    }
  }

  /** What the first arrival is, and what the others still deliver. */
  lemma {:induction false} LeadDelivers(pre: seq<Arrival>, frames: seq<Frame>, mode: Mode, cmd: byte)
    requires frames != [] && Delivers(pre, frames, mode, cmd)
    ensures pre != [] && Reads(pre, mode) > 0
    ensures Reads(pre, mode) == Reads(pre[1..], mode) + if Echo(pre[0], mode) then 0 else 1
    ensures if Echo(pre[0], mode) || Unsolicited(pre[0], mode, cmd) then Delivers(pre[1..], frames, mode, cmd)
            else pre[0] == Raw(Wire(frames[0], mode)) && Delivers(pre[1..], frames[1..], mode, cmd)
  {
    if Echo(pre[0], mode) { LeadDelivers(pre[1..], frames, mode, cmd); }
  }

  lemma {:induction false} NextFrameAssembles(cmd: byte, from: byte, part: seq<byte>, mode: Mode, first: bool,
      soFar: Option<seq<byte>>, pre: seq<Arrival>, rest: seq<Arrival>, ear: Ear, n: nat)
    requires Answers(from, cmd) && (first || soFar.Some?)
    requires pre != [] && pre[0] == Raw(Wire(Frames(from, part, mode, first)[0], mode)) && Reads(pre[1..], mode) < n
    requires Delivers(pre[1..], Frames(from, part, mode, first)[1..], mode, cmd)
    ensures Respond(pre + rest, mode, cmd, ear, soFar, n)
         == (Outcomes(from, (if first then [] else soFar.value) + part), rest, Overheard(ear, pre, mode))
    decreases |pre|, 0
  {
    FirstOfFrames(from, part, mode, first);
    hide Respond, Outcomes, Dispatch, Overheard, Framed, Delivers, Frames, Zeros;
    if |part| <= mode.MaxPayload() {
      LastFrameAssembles(cmd, from, part, mode, first, soFar, pre, rest, ear, n);
    } else {
      var begun, chunk := if first then [] else soFar.value, part[..mode.MaxPayload()];
      MiddleFrameTaken(cmd, from, chunk, mode, first, soFar, pre, rest, ear, n);
      FullChunk(begun, part, mode.MaxPayload());
      RestAssembles(cmd, from, part[mode.MaxPayload()..], mode, false, Some(begun + chunk), pre[1..], rest, ear, n - 1);
    }
  }

  lemma LastFrameAssembles(cmd: byte, from: byte, part: seq<byte>, mode: Mode, first: bool, soFar: Option<seq<byte>>,
                           pre: seq<Arrival>, rest: seq<Arrival>, ear: Ear, n: nat)
    requires Answers(from, cmd) && (first || soFar.Some?) && n > 0 && |part| <= mode.MaxPayload()
    requires pre != [] && pre[0] == Raw(Wire(Framed(first, true, from, part), mode))
    requires Delivers(pre[1..], [], mode, cmd)
    ensures Respond(pre + rest, mode, cmd, ear, soFar, n)
         == (Outcomes(from, (if first then [] else soFar.value) + part), rest, Overheard(ear, pre, mode))
  {
    hide Respond, Outcomes, Dispatch, Unwire, Overheard, Wire, Framed, Delivers, Zeros, Frames;
    LeadArrival(pre, rest);
    WireKeepsChunk(first, true, from, part, mode);
    FrameTaken(pre + rest, mode, cmd, ear, soFar, n, from, first, true, part);
    OverheardNothing(ear, pre, mode, from);
    NothingLeft(pre[1..], rest, mode, cmd, ear);
    PaddingLost(from, if first then [] else soFar.value, part, mode.MaxPayload() - |part|);
  }

  lemma LeadArrival(pre: seq<Arrival>, rest: seq<Arrival>)
    requires pre != []
    ensures pre + rest != [] && (pre + rest)[0] == pre[0] && (pre + rest)[1..] == pre[1..] + rest
  {
  }

  lemma MiddleFrameTaken(cmd: byte, from: byte, chunk: seq<byte>, mode: Mode, first: bool, soFar: Option<seq<byte>>,
                         pre: seq<Arrival>, rest: seq<Arrival>, ear: Ear, n: nat)
    requires Answers(from, cmd) && (first || soFar.Some?) && n > 0 && |chunk| == mode.MaxPayload()
    requires pre != [] && pre[0] == Raw(Wire(Framed(first, false, from, chunk), mode))
    ensures Respond(pre + rest, mode, cmd, ear, soFar, n)
         == Respond(pre[1..] + rest, mode, cmd, ear, Some((if first then [] else soFar.value) + chunk), n - 1)
    ensures Overheard(ear, pre, mode) == Overheard(ear, pre[1..], mode)
  {
    assert Zeros(0) == [];
    hide Respond, Outcomes, Dispatch, Unwire, Overheard, Wire, Framed, Zeros;
    LeadArrival(pre, rest);
    WireKeepsChunk(first, false, from, chunk, mode);
    FrameTaken(pre + rest, mode, cmd, ear, soFar, n, from, first, false, chunk);
    OverheardNothing(ear, pre, mode, from);
    Unit((if first then [] else soFar.value) + chunk);
  }

  lemma FirstOfFrames(cmd: byte, part: seq<byte>, mode: Mode, first: bool)
    ensures var frames, size := Frames(cmd, part, mode, first), mode.MaxPayload();
            && frames[0] == Framed(first, |part| <= size, cmd, if |part| <= size then part else part[..size])
            && frames[1..] == if |part| <= size then [] else Frames(cmd, part[size..], mode, false)
  {
  }

  lemma FullChunk(begun: seq<byte>, part: seq<byte>, size: nat)
    requires |part| > size
    ensures begun + part[..size] + Zeros(0) == begun + part[..size]
    ensures begun + part[..size] + part[size..] == begun + part
  {
  }

  lemma NothingLeft(tail: seq<Arrival>, rest: seq<Arrival>, mode: Mode, cmd: byte, ear: Ear)
    requires Delivers(tail, [], mode, cmd)
    ensures tail + rest == rest && Overheard(ear, tail, mode) == ear
  {
  }

  lemma PaddingLost(cmd: byte, begun: seq<byte>, part: seq<byte>, n: nat)
    ensures Outcomes(cmd, begun + part + Zeros(n)) == Outcomes(cmd, begun + part)
  {
    TrimPadding(begun + part, n);
  }

  lemma OverheardNothing(ear: Ear, pre: seq<Arrival>, mode: Mode, cmd: byte)
    requires pre != [] && pre[0].Raw? && Unwire(pre[0].frame, mode).Some?
        && Unwire(pre[0].frame, mode).value.Command() == cmd
    requires !DeviceInitiated(cmd)
    ensures Overheard(ear, pre, mode) == Overheard(ear, pre[1..], mode)
  {
  }

  /** Any payload, framed by the device in either mode and delivered with any echoes and unsolicited packets in
      between, within the limit on reads (twenty, in the daemon), comes out whole up to trailing zeros. The
      unsolicited packets are heard, and nothing behind the response is touched. */
  lemma RoundTrip(cmd: byte, payload: seq<byte>, mode: Mode, pre: seq<Arrival>, rest: seq<Arrival>, ear: Ear,
      limit: nat)
    requires !DeviceInitiated(cmd) && cmd != ERROR
    requires Delivers(pre, Build(cmd, payload, mode), mode, cmd) && Reads(pre, mode) <= limit
    ensures var p := Trim(payload);
            Respond(pre + rest, mode, cmd, ear, None, limit)
            == (Reply(if p == [] then 0 else p[0], if |p| > 1 then p[1..] else []), rest, Overheard(ear, pre, mode))
  {
    BuildIsFrames(cmd, payload, mode);
    RestAssembles(cmd, cmd, payload, mode, true, None, pre, rest, ear, limit);
    assert [] + payload == payload;
    hide Respond, Delivers, Overheard;
  }

  /** A failure the device reports, framed like any response, is told apart from a reply, with its code. */
  lemma ErrorRoundTrip(cmd: byte, payload: seq<byte>, mode: Mode, pre: seq<Arrival>, rest: seq<Arrival>, ear: Ear,
      limit: nat)
    requires !DeviceInitiated(cmd)
    requires Delivers(pre, Build(ERROR, payload, mode), mode, cmd) && Reads(pre, mode) <= limit
    ensures var p := Trim(payload);
            Respond(pre + rest, mode, cmd, ear, None, limit)
            == (FirmwareError(if p == [] then 0 else p[0]), rest, Overheard(ear, pre, mode))
  {
    BuildIsFrames(ERROR, payload, mode);
    RestAssembles(cmd, ERROR, payload, mode, true, None, pre, rest, ear, limit);
    assert [] + payload == payload;
    hide Respond, Delivers, Overheard;
  }

  // ── No response ──────────────────────────────────────────────────

  /** Packets without a whole response to `cmd` among them; `started` if its START came before. */
  predicate Unfinished(pre: seq<Arrival>, mode: Mode, cmd: byte, started: bool) {
    if pre == [] then true
    else if Echo(pre[0], mode) || Unsolicited(pre[0], mode, cmd) then Unfinished(pre[1..], mode, cmd, started)
    else
      && pre[0].Raw?
      && var p := Unwire(pre[0].frame, mode).value;
         var begun := started || p.IsStart();
         !(begun && p.IsEnd()) && Unfinished(pre[1..], mode, cmd, begun)
  }

  lemma PartTaken(inbox: seq<Arrival>, mode: Mode, cmd: byte, ear: Ear, payload: Option<seq<byte>>, n: nat)
      returns (soFar: Option<seq<byte>>)
    requires inbox != [] && inbox[0].Raw? && n > 0 && !DeviceInitiated(cmd)
    requires !Echo(inbox[0], mode) && !Unsolicited(inbox[0], mode, cmd)
    requires var p := Unwire(inbox[0].frame, mode).value; !((payload.Some? || p.IsStart()) && p.IsEnd())
    ensures soFar.Some? <==> payload.Some? || Unwire(inbox[0].frame, mode).value.IsStart()
    ensures Respond(inbox, mode, cmd, ear, payload, n) == Respond(inbox[1..], mode, cmd, ear, soFar, n - 1)
    ensures Noticed(ear, inbox[0], mode) == ear
  {
    var p := Unwire(inbox[0].frame, mode).value;
    assert NextRead(inbox, mode) == (Got(p), inbox[1..]);
    soFar := Extend(payload, p);
    hide Dispatch, NextRead, Unwire, Outcomes;
  }

  lemma WaitHead(pre: seq<Arrival>, mode: Mode, cmd: byte, ear: Ear, started: bool)
    requires pre != [] && Unfinished(pre, mode, cmd, started)
    ensures pre[0].Raw?
    ensures Echo(pre[0], mode) || Unsolicited(pre[0], mode, cmd) ==> Unfinished(pre[1..], mode, cmd, started)
    ensures !(Echo(pre[0], mode) || Unsolicited(pre[0], mode, cmd)) ==>
              var p := Unwire(pre[0].frame, mode).value;
              var begun := started || p.IsStart();
              !(begun && p.IsEnd()) && Unfinished(pre[1..], mode, cmd, begun)
    ensures Reads(pre, mode) == Reads(pre[1..], mode) + if Echo(pre[0], mode) then 0 else 1
    ensures Echo(pre[0], mode) ==> Noticed(ear, pre[0], mode) == ear
  {
    hide Dispatch, Overheard;
  }

  /** All of `pre` is looked at within `n` reads. */
  predicate InTime(pre: seq<Arrival>, mode: Mode, n: nat) {
    Reads(pre, mode) < n || (Reads(pre, mode) == n && (pre == [] || !Echo(pre[|pre| - 1], mode)))
  }

  lemma {:induction false} TimeLeft(pre: seq<Arrival>, mode: Mode, n: nat)
    requires pre != [] && InTime(pre, mode, n)
    ensures n > 0 && InTime(pre[1..], mode, if Echo(pre[0], mode) then n else n - 1)
  {
    if Echo(pre[0], mode) && |pre| > 1 { TimeLeft(pre[1..], mode, n); }
    hide Unwire;
  }

  /** One packet that does not complete the response. */
  lemma WaitStep(pre: seq<Arrival>, rest: seq<Arrival>, mode: Mode, cmd: byte, ear: Ear, payload: Option<seq<byte>>,
      n: nat) returns (next: Option<seq<byte>>, left: nat)
    requires !DeviceInitiated(cmd) && pre != [] && Unfinished(pre, mode, cmd, payload.Some?) && InTime(pre, mode, n)
    ensures left <= n && Reads(pre, mode) == Reads(pre[1..], mode) + (n - left)
    ensures Unfinished(pre[1..], mode, cmd, next.Some?) && InTime(pre[1..], mode, left)
    ensures Respond(pre + rest, mode, cmd, ear, payload, n)
         == Respond(pre[1..] + rest, mode, cmd, Noticed(ear, pre[0], mode), next, left)
  {
    LeadArrival(pre, rest);
    TimeLeft(pre, mode, n);
    WaitHead(pre, mode, cmd, ear, payload.Some?);
    hide Respond, Dispatch, Unwire, Unfinished, Reads, Overheard, InTime;
    next, left := payload, if Echo(pre[0], mode) then n else n - 1;
    if Echo(pre[0], mode) {
      EchoSkipped(pre + rest, mode, cmd, ear, payload, n);
    } else if Unsolicited(pre[0], mode, cmd) {
      UnsolicitedPassed(pre + rest, mode, cmd, ear, payload, n);
    } else {
      next := PartTaken(pre + rest, mode, cmd, ear, payload, n);
    }
  }

  /** Packets that do not complete the response leave the wait where it was, but for the reads they cost. */
  lemma {:induction false} WaitGoesOn(pre: seq<Arrival>, rest: seq<Arrival>, mode: Mode, cmd: byte, ear: Ear,
      payload: Option<seq<byte>>, n: nat) returns (soFar: Option<seq<byte>>)
    requires !DeviceInitiated(cmd) && Unfinished(pre, mode, cmd, payload.Some?) && InTime(pre, mode, n)
    ensures Reads(pre, mode) <= n
    ensures Respond(pre + rest, mode, cmd, ear, payload, n)
         == Respond(rest, mode, cmd, Overheard(ear, pre, mode), soFar, n - Reads(pre, mode))
    decreases |pre|
  {
    hide Respond, DeviceInitiated, Noticed, Unfinished, Reads, Overheard, InTime;
    if pre == [] {
      NothingToRead(pre, rest, mode, ear);
      soFar := payload;
    } else {
      var next, left := WaitStep(pre, rest, mode, cmd, ear, payload, n);
      OverheardHead(ear, pre, mode);
      soFar := WaitGoesOn(pre[1..], rest, mode, cmd, Noticed(ear, pre[0], mode), next, left);
    }
  }

  lemma NothingToRead(pre: seq<Arrival>, rest: seq<Arrival>, mode: Mode, ear: Ear)
    requires pre == []
    ensures pre + rest == rest && Reads(pre, mode) == 0
    ensures Overheard(ear, pre, mode) == ear && HeardAside(ear, pre, mode) == ear
  {
  }

  lemma OverheardHead(ear: Ear, pre: seq<Arrival>, mode: Mode)
    requires pre != []
    ensures Overheard(ear, pre, mode) == Overheard(Noticed(ear, pre[0], mode), pre[1..], mode)
  {
    hide Noticed;
  }

  lemma WaitEnds(rest: seq<Arrival>, mode: Mode, cmd: byte, ear: Ear, payload: Option<seq<byte>>, n: nat)
    requires n > 0
    ensures Respond([Silence] + rest, mode, cmd, ear, payload, n) == (TimedOut, rest, ear)
    ensures Respond([Fault] + rest, mode, cmd, ear, payload, n) == (ReadError, rest, ear)
    ensures Respond([], mode, cmd, ear, payload, n) == (TimedOut, [], ear)
  {
    assert ([Silence] + rest)[1..] == rest && ([Fault] + rest)[1..] == rest;
    hide Dispatch, Outcomes, Extend;
  }

  /** Without a response the caller learns why: the device fell silent, or the interface failed. What came in between
      is heard, and nothing behind it is touched. */
  lemma NoResponseSaysWhy(cmd: byte, pre: seq<Arrival>, rest: seq<Arrival>, mode: Mode, ear: Ear, limit: nat)
    requires !DeviceInitiated(cmd) && Unfinished(pre, mode, cmd, false) && Reads(pre, mode) < limit
    ensures Respond(pre + ([Silence] + rest), mode, cmd, ear, None, limit)
         == (TimedOut, rest, Overheard(ear, pre, mode))
    ensures Respond(pre + ([Fault] + rest), mode, cmd, ear, None, limit) == (ReadError, rest, Overheard(ear, pre, mode))
    ensures Respond(pre, mode, cmd, ear, None, limit) == (TimedOut, [], Overheard(ear, pre, mode))
  {
    hide Respond, Overheard, Unfinished;
    StopEndsWait(cmd, pre, rest, mode, ear, limit, Silence);
    StopEndsWait(cmd, pre, rest, mode, ear, limit, Fault);
    var dry := WaitGoesOn(pre, [], mode, cmd, ear, None, limit);
    Unit(pre);
    WaitEnds([], mode, cmd, Overheard(ear, pre, mode), dry, limit - Reads(pre, mode));
    hide Reads, Echo, Unwire;
  }

  lemma StopEndsWait(cmd: byte, pre: seq<Arrival>, rest: seq<Arrival>, mode: Mode, ear: Ear, limit: nat, stop: Arrival)
    requires !DeviceInitiated(cmd) && Unfinished(pre, mode, cmd, false) && Reads(pre, mode) < limit
    requires stop == Silence || stop == Fault
    ensures Respond(pre + ([stop] + rest), mode, cmd, ear, None, limit)
         == (if stop == Silence then TimedOut else ReadError, rest, Overheard(ear, pre, mode))
  {
    hide Respond, Overheard, Unfinished;
    assert InTime(pre, mode, limit);
    hide Reads, Echo, Unwire, InTime;
    var soFar := WaitGoesOn(pre, [stop] + rest, mode, cmd, ear, None, limit);
    WaitEnds(rest, mode, cmd, Overheard(ear, pre, mode), soFar, limit - Reads(pre, mode));
  }

  /** The wait is over with the last read, and what is behind it is untouched. */
  lemma ReadLimitReached(cmd: byte, pre: seq<Arrival>, rest: seq<Arrival>, mode: Mode, ear: Ear)
    requires !DeviceInitiated(cmd) && Unfinished(pre, mode, cmd, false) && InTime(pre, mode, Reads(pre, mode))
    ensures Respond(pre + rest, mode, cmd, ear, None, Reads(pre, mode)) == (TooMany, rest, Overheard(ear, pre, mode))
  {
    var soFar := WaitGoesOn(pre, rest, mode, cmd, ear, None, Reads(pre, mode));
    hide Overheard, Reads, Unfinished, InTime;
    assert Respond(rest, mode, cmd, Overheard(ear, pre, mode), soFar, 0) == (TooMany, rest, Overheard(ear, pre, mode));
  }

  // ── Draining ─────────────────────────────────────────────────────

  /** One arrival, if a drain passes it on: what the device sends on its own, but for state reports. */
  function Aside(ear: Ear, a: Arrival, mode: Mode): Ear {
    if a.Raw? && Unwire(a.frame, mode).Some? && Unwire(a.frame, mode).value.Command() in {KEY_EVENT, TYPE_STRING}
    then Dispatch(ear, Unwire(a.frame, mode).value) else ear
  }

  function HeardAside(ear: Ear, pre: seq<Arrival>, mode: Mode): Ear
    decreases |pre|
  {
    if pre == [] then ear else HeardAside(Aside(ear, pre[0], mode), pre[1..], mode)
  }

  /** The last packet of a response, to whatever command. */
  predicate EndsResponse(a: Arrival, mode: Mode) {
    a.Raw? && Unwire(a.frame, mode).Some? && Unwire(a.frame, mode).value.IsEnd()
    && !DeviceInitiated(Unwire(a.frame, mode).value.Command())
  }

  lemma {:induction false} DrainGoesOn(pre: seq<Arrival>, rest: seq<Arrival>, mode: Mode, ear: Ear, n: nat)
    requires Passing(pre, mode) && InTime(pre, mode, n)
    ensures Reads(pre, mode) <= n
    ensures Drain(pre + rest, mode, ear, n) == Drain(rest, mode, HeardAside(ear, pre, mode), n - Reads(pre, mode))
    decreases |pre|
  {
    hide Drain, Aside, EndsResponse, HeardAside, Reads, Echo, InTime, Passing;
    if pre == [] {
      NothingToRead(pre, rest, mode, ear);
    } else {
      PassingHead(pre, mode);
      LeadArrival(pre, rest);
      TimeLeft(pre, mode, n);
      DrainStep(pre + rest, mode, ear, n);
      AsideHead(pre, mode, ear);
      DrainGoesOn(pre[1..], rest, mode, Aside(ear, pre[0], mode), if Echo(pre[0], mode) then n else n - 1);
    }
  }

  /** Packets none of which ends a response. */
  predicate Passing(pre: seq<Arrival>, mode: Mode) {
    forall a :: a in pre ==> a.Raw? && !EndsResponse(a, mode)
  }

  lemma PassingHead(pre: seq<Arrival>, mode: Mode)
    requires pre != [] && Passing(pre, mode)
    ensures pre[0].Raw? && !EndsResponse(pre[0], mode) && Passing(pre[1..], mode)
  {
    assert pre[0] in pre && forall a :: a in pre[1..] ==> a in pre;
    hide EndsResponse;
  }

  lemma AsideHead(pre: seq<Arrival>, mode: Mode, ear: Ear)
    requires pre != []
    ensures HeardAside(ear, pre, mode) == HeardAside(Aside(ear, pre[0], mode), pre[1..], mode)
    ensures Reads(pre, mode) == Reads(pre[1..], mode) + if Echo(pre[0], mode) then 0 else 1
  {
    hide Aside, Unwire;
  }

  lemma DrainStep(inbox: seq<Arrival>, mode: Mode, ear: Ear, n: nat)
    requires inbox != [] && inbox[0].Raw? && !EndsResponse(inbox[0], mode) && n > 0
    ensures Drain(inbox, mode, ear, n)
         == Drain(inbox[1..], mode, Aside(ear, inbox[0], mode), if Echo(inbox[0], mode) then n else n - 1)
    ensures Echo(inbox[0], mode) ==> Aside(ear, inbox[0], mode) == ear
  {
    if Echo(inbox[0], mode) {
      assert NextRead(inbox, mode) == NextRead(inbox[1..], mode);
    } else {
      assert NextRead(inbox, mode) == (Got(Unwire(inbox[0].frame, mode).value), inbox[1..]);
    }
    hide Dispatch, Unwire;
  }

  /** A drain takes a response nobody waits for off the device, up to its last packet, and nothing behind it; it gives
      up when the device falls silent or fails, or when its reads are used up. Keys and strings in between are passed
      on, state reports are not. */
  lemma DrainTakesOneResponse(pre: seq<Arrival>, last: Arrival, rest: seq<Arrival>, mode: Mode, ear: Ear, limit: nat)
    requires Passing(pre, mode)
    requires EndsResponse(last, mode) || last.Silence? || last.Fault?
    ensures Reads(pre, mode) < limit ==>
              Drain(pre + ([last] + rest), mode, ear, limit) == (rest, HeardAside(ear, pre, mode))
    ensures Reads(pre, mode) == limit && InTime(pre, mode, limit) ==>
              Drain(pre + rest, mode, ear, limit) == (rest, HeardAside(ear, pre, mode))
  {
    if Reads(pre, mode) < limit {
      DrainGoesOn(pre, [last] + rest, mode, ear, limit);
      DrainStops(last, rest, mode, HeardAside(ear, pre, mode), limit - Reads(pre, mode));
    } else if Reads(pre, mode) == limit && InTime(pre, mode, limit) {
      DrainGoesOn(pre, rest, mode, ear, limit);
    }
    hide HeardAside, Reads, EndsResponse, NextRead;
  }

  lemma DrainStops(last: Arrival, rest: seq<Arrival>, mode: Mode, ear: Ear, n: nat)
    requires n > 0 && (EndsResponse(last, mode) || last.Silence? || last.Fault?)
    ensures Drain([last] + rest, mode, ear, n) == (rest, ear)
  {
    assert ([last] + rest)[1..] == rest;
    hide Dispatch;
  }
}
