// OSC sequences sniffed from Claude's output (coredeck-claude/src/main.rs,
// `OscSniffer`; ECMA-48, sections 8.3.89 and 8.3.143).

module OscTitles {
  import opened Prelude

  const ESC: byte := 0x1B
  const BEL: byte := 0x07
  const OSC: byte := 0x5D         // ']'
  const SEMICOLON: byte := 0x3B   // ';'
  const BACKSLASH: byte := 0x5C   // '\'
  const OSC_BODY_CAP: nat := 512
  const U32_MAX: nat := 0xFFFF_FFFF

  datatype Phase = Outside | Esc | OscParam | OscBody | OscBodyEsc

  datatype Sniffer = Sniffer(phase: Phase, param: nat, hasParam: bool, body: seq<byte>)

  datatype Osc = Osc(code: nat, content: seq<byte>)

  const START := Sniffer(Outside, 0, false, [])

  predicate IsDigit(b: byte) { 0x30 <= b <= 0x39 }

  function Min(a: nat, b: nat): nat { if a < b then a else b }

  /** Saturating 32-bit `param * 10 + digit`. */
  function Accumulate(param: nat, digit: byte): nat
    requires IsDigit(digit)
  {
    Min(Min(param * 10, U32_MAX) + (digit - 0x30), U32_MAX)
  }

  function Emission(s: Sniffer): seq<Osc> {
    if s.hasParam then [Osc(s.param, s.body)] else []
  }

  /** `process`: the next state, and what is emitted. */
  function Step(s: Sniffer, b: byte): (Sniffer, seq<Osc>) {
    match s.phase
    case Outside => (if b == ESC then s.(phase := Esc) else s, [])
    case Esc => (if b == OSC then Sniffer(OscParam, 0, false, []) else s.(phase := Outside), [])
    case OscParam =>
      if IsDigit(b) then (s.(hasParam := true, param := Accumulate(s.param, b)), [])
      else if b == SEMICOLON then (s.(phase := OscBody), [])
      else if b == BEL then (START, Emission(s))
      else if b == ESC then (s.(phase := OscBodyEsc), [])
      else (START, [])
    case OscBody =>
      if b == BEL then (START, Emission(s))
      else if b == ESC then (s.(phase := OscBodyEsc), [])
      else (if |s.body| < OSC_BODY_CAP then s.(body := s.body + [b]) else s, [])
    case OscBodyEsc => (START, if b == BACKSLASH then Emission(s) else [])
  }

  function Feed(s: Sniffer, bytes: seq<byte>): (Sniffer, seq<Osc>)
    decreases |bytes|
  {
    if bytes == [] then (s, [])
    else
      var (t, out) := Step(s, bytes[0]);
      var (end, more) := Feed(t, bytes[1..]);
      (end, out + more)
  }

  function FeedAll(s: Sniffer, chunks: seq<seq<byte>>): (Sniffer, seq<Osc>)
    decreases |chunks|
  {
    if chunks == [] then (s, [])
    else
      var (t, out) := Feed(s, chunks[0]);
      var (end, more) := FeedAll(t, chunks[1..]);
      (end, out + more)
  }

  /** What every reachable state satisfies: the body never passes its cap, and outside a sequence nothing is kept. */
  predicate Valid(s: Sniffer) {
    && |s.body| <= OSC_BODY_CAP && s.param <= U32_MAX
    && (s.phase == Outside || s.phase == Esc ==> s == START.(phase := s.phase))
    && (s.phase == OscParam ==> s.body == [])
  }

  class OscSniffer {
    var state: Phase
    var param: nat
    var hasParam: bool
    var body: seq<byte>

    ghost function View(): Sniffer
      reads this
    {
      Sniffer(state, param, hasParam, body)
    }

    constructor ()
      ensures View() == START
    {
      state, param, hasParam, body := Outside, 0, false, [];
    }

    method Reset()
      modifies this
      ensures View() == START
    {
      state, param, hasParam, body := Outside, 0, false, [];
    }

    method Process(b: byte) returns (emitted: seq<Osc>)
      modifies this
      ensures (View(), emitted) == Step(old(View()), b)
    {
      emitted := [];
      match state {
        case Outside =>
          if b == ESC { state := Esc; }
        case Esc =>
          if b == OSC {
            state, param, hasParam, body := OscParam, 0, false, [];
          } else {
            state := Outside;
          }
        case OscParam =>
          if IsDigit(b) {
            hasParam := true;
            param := Accumulate(param, b);
          } else if b == SEMICOLON {
            state := OscBody;
          } else if b == BEL {
            if hasParam { emitted := [Osc(param, body)]; }
            Reset();
          } else if b == ESC {
            state := OscBodyEsc;
          } else {
            Reset();
          }
        case OscBody =>
          if b == BEL {
            if hasParam { emitted := [Osc(param, body)]; }
            Reset();
          } else if b == ESC {
            state := OscBodyEsc;
          } else if |body| < OSC_BODY_CAP {
            body := body + [b];
          }
        case OscBodyEsc =>
          if b == BACKSLASH && hasParam { emitted := [Osc(param, body)]; }
          Reset();
      }
    }

    method FeedRead(buf: seq<byte>) returns (emitted: seq<Osc>)
      modifies this
      ensures (View(), emitted) == Feed(old(View()), buf)
    {
      emitted := [];
      Unit(Feed(View(), buf).1);
      assert buf[0..] == buf;
      var i := 0;
      while i < |buf|
        invariant i <= |buf|
        invariant Feed(old(View()), buf) == (Feed(View(), buf[i..]).0, emitted + Feed(View(), buf[i..]).1)
      {
        var out := Process(buf[i]);
        assert buf[i..][1..] == buf[i + 1..];
        Regroup(emitted, out, Feed(View(), buf[i + 1..]).1);
        emitted := emitted + out;
        i := i + 1;
      }
      Unit(emitted);
    }
  }

  // ── Chunking ─────────────────────────────────────────────────────

  lemma {:induction false} FeedConcat(s: Sniffer, a: seq<byte>, b: seq<byte>)
    ensures var (t, out) := Feed(s, a); Feed(s, a + b) == (Feed(t, b).0, out + Feed(t, b).1)
    decreases |a|
  {
    if a == [] {
      assert a + b == b;
      assert [] + Feed(s, b).1 == Feed(s, b).1;
    } else {
      assert (a + b)[1..] == a[1..] + b;
      var (t, out) := Step(s, a[0]);
      hide Step;
      FeedConcat(t, a[1..], b);
      Regroup(out, Feed(t, a[1..]).1, Feed(Feed(t, a[1..]).0, b).1);
    }
  }

  /** However the output is cut into reads, the sniffer sees the same sequences. */
  lemma {:induction false} ChunkingIrrelevant(s: Sniffer, chunks: seq<seq<byte>>)
    ensures FeedAll(s, chunks) == Feed(s, Flatten(chunks))
    decreases |chunks|
  {
    if chunks != [] {
      FeedConcat(s, chunks[0], Flatten(chunks[1..]));
      ChunkingIrrelevant(Feed(s, chunks[0]).0, chunks[1..]);
    }
  }

  lemma {:induction false} ValidAlways(s: Sniffer, bytes: seq<byte>)
    requires Valid(s)
    ensures Valid(Feed(s, bytes).0)
    decreases |bytes|
  {
    if bytes != [] {
      ValidAlways(Step(s, bytes[0]).0, bytes[1..]);
    }
  }

  // ── One sequence ─────────────────────────────────────────────────

  predicate Digits(s: seq<byte>) { forall d :: d in s ==> IsDigit(d) }

  function Decimal(digits: seq<byte>): nat
    requires Digits(digits)
  {
    if digits == [] then 0
    else
      var last := digits[|digits| - 1];
      assert last in digits;
      Decimal(digits[..|digits| - 1]) * 10 + (last - 0x30)
  }

  /** Free of what would end or abort a sequence. */
  predicate Printable(s: seq<byte>) { BEL !in s && ESC !in s }

  lemma {:induction false} DigitsRead(digits: seq<byte>)
    requires Digits(digits)
    ensures Feed(Sniffer(OscParam, 0, false, []), digits)
         == (Sniffer(OscParam, Min(Decimal(digits), U32_MAX), digits != [], []), [])
  {
    if digits != [] {
      var init, last := digits[..|digits| - 1], digits[|digits| - 1];
      assert digits == init + [last];
      DigitsRead(init);
      DigitRead(Decimal(init), init != [], last);
      assert Decimal(digits) == Decimal(init) * 10 + (last - 0x30);
      hide Feed, Decimal;
      FeedConcat(Sniffer(OscParam, 0, false, []), init, [last]);
    }
  }

  /** Saturating at every digit comes to saturating once. */
  lemma DigitRead(value: nat, any: bool, digit: byte)
    requires IsDigit(digit)
    ensures Feed(Sniffer(OscParam, Min(value, U32_MAX), any, []), [digit])
         == (Sniffer(OscParam, Min(value * 10 + (digit - 0x30), U32_MAX), true, []), [])
  {
    FeedOne(Sniffer(OscParam, Min(value, U32_MAX), any, []), digit);
    hide Feed;
  }

  lemma FeedOne(s: Sniffer, b: byte)
    ensures Feed(s, [b]) == Step(s, b)
  {
    Unit(Step(s, b).1);
  }

  lemma {:induction false} BodyRead(s: Sniffer, text: seq<byte>)
    requires s.phase == OscBody && Printable(text) && |s.body| <= OSC_BODY_CAP
    ensures var room := OSC_BODY_CAP - |s.body|;
            Feed(s, text) == (s.(body := s.body + text[..Min(|text|, room)]), [])
    decreases |text|
  {
    Unit(s.body);
    assert text[..0] == [];
    if text != [] {
      var t := Step(s, text[0]).0;
      assert text[0] in text && (forall b :: b in text[1..] ==> b in text);
      BodyRead(t, text[1..]);
      Unit(Feed(t, text[1..]).1);
      if |s.body| < OSC_BODY_CAP {
        Regroup(s.body, [text[0]], text[1..][..Min(|text| - 1, OSC_BODY_CAP - |t.body|)]);
        assert text[..Min(|text|, OSC_BODY_CAP - |s.body|)] == [text[0]]
          + text[1..][..Min(|text| - 1, OSC_BODY_CAP - |t.body|)];
      }
    }
  }

  /** The two terminators: BEL, and ST written as ESC backslash. */
  function Terminator(st: bool): seq<byte> {
    if st then [ESC, BACKSLASH] else [BEL]
  }

  /** `ESC ] digits ; body` with its terminator. */
  function Written(digits: seq<byte>, text: seq<byte>, st: bool): seq<byte> {
    [ESC, OSC] + (digits + ([SEMICOLON] + (text + Terminator(st))))
  }

  lemma FeedTwo(s: Sniffer, a: byte, b: byte)
    ensures var (t, out) := Step(s, a); Feed(s, [a, b]) == (Step(t, b).0, out + Step(t, b).1)
  {
    assert [a, b][1..] == [b];
    FeedOne(Step(s, a).0, b);
  }

  lemma Terminated(s: Sniffer, st: bool)
    requires s.phase == OscParam || s.phase == OscBody
    ensures Feed(s, Terminator(st)) == (START, Emission(s))
  {
    Unit(Emission(s));
    if st { FeedTwo(s, ESC, BACKSLASH); } else { FeedOne(s, BEL); }
  }

  /** Outside a sequence, anything without ESC passes unnoticed. */
  lemma {:induction false} ChatterIgnored(text: seq<byte>)
    requires ESC !in text
    ensures Feed(START, text) == (START, [])
    decreases |text|
  {
    if text != [] {
      assert text[0] in text && (forall b :: b in text[1..] ==> b in text);
      ChatterIgnored(text[1..]);
      Unit(Feed(START, text[1..]).1);
    }
  }

  lemma StartRead(digits: seq<byte>, text: seq<byte>, st: bool)
    requires Digits(digits) && Printable(text)
    ensures var s := Sniffer(OscParam, 0, false, []);
            Feed(s, digits + ([SEMICOLON] + (text + Terminator(st))))
            == (START, if digits == [] then []
              else [Osc(Min(Decimal(digits), U32_MAX), text[..Min(|text|, OSC_BODY_CAP)])])
  {
    var s0 := Sniffer(OscParam, 0, false, []);
    var s1 := Sniffer(OscParam, Min(Decimal(digits), U32_MAX), digits != [], []);
    var s2 := s1.(phase := OscBody);
    DigitsRead(digits);
    FeedOne(s1, SEMICOLON);
    TextRead(s2, text, st);
    hide Feed, Decimal, Terminator;
    FeedConcat(s1, [SEMICOLON], text + Terminator(st));
    FeedConcat(s0, digits, [SEMICOLON] + (text + Terminator(st)));
    Unit(Emission(s2.(body := text[..Min(|text|, OSC_BODY_CAP)])));
  }

  lemma TextRead(s: Sniffer, text: seq<byte>, st: bool)
    requires s.phase == OscBody && s.body == [] && Printable(text)
    ensures Feed(s, text + Terminator(st)) == (START, Emission(s.(body := text[..Min(|text|, OSC_BODY_CAP)])))
  {
    var end := s.(body := text[..Min(|text|, OSC_BODY_CAP)]);
    BodyRead(s, text);
    Unit(end.body);
    Terminated(end, st);
    hide Feed, Terminator;
    FeedConcat(s, text, Terminator(st));
    Unit(Emission(end));
  }

  lemma Skipped(digits: seq<byte>, text: seq<byte>, st: bool)
    requires Digits(digits) && Printable(text)
    ensures Feed(START, digits + ([SEMICOLON] + (text + Terminator(st)))) == (START, [])
  {
    var plain := digits + [SEMICOLON] + text;
    ChatterIgnored(plain);
    assert digits + ([SEMICOLON] + (text + Terminator(st))) == plain + Terminator(st);
    FeedConcat(START, plain, Terminator(st));
    if st { FeedTwo(START, ESC, BACKSLASH); } else { FeedOne(START, BEL); }
    hide Feed;
  }

  /** From any reachable state, a well-formed sequence leaves the sniffer in its start state; it is emitted, once,
      with its saturated code and the first 512 bytes of its body, if and only if the sniffer was outside a
      sequence and there is a code. */
  lemma SequenceEmitted(s: Sniffer, digits: seq<byte>, text: seq<byte>, st: bool)
    requires Valid(s) && Digits(digits) && Printable(text)
    ensures Feed(s, Written(digits, text, st))
         == (START, if s.phase == Outside && digits != []
                    then [Osc(Min(Decimal(digits), U32_MAX), text[..Min(|text|, OSC_BODY_CAP)])] else [])
  {
    var rest := digits + ([SEMICOLON] + (text + Terminator(st)));
    FeedTwo(s, ESC, OSC);
    FeedConcat(s, [ESC, OSC], rest);
    StartRead(digits, text, st);
    Skipped(digits, text, st);
    hide Feed, Decimal, Terminator;
    Unit(Feed(START, rest).1);
    Unit(Feed(Sniffer(OscParam, 0, false, []), rest).1);
  }

  /** A sequence without a body, or one that ends early: `end` comes right after the digits. */
  lemma CodeEnds(digits: seq<byte>, end: seq<byte>)
    requires Digits(digits)
    ensures var s := Sniffer(OscParam, Min(Decimal(digits), U32_MAX), digits != [], []);
            Feed(START, [ESC, OSC] + (digits + end)) == Feed(s, end)
  {
    var s0 := Sniffer(OscParam, 0, false, []);
    FeedTwo(START, ESC, OSC);
    DigitsRead(digits);
    hide Feed, Decimal;
    FeedConcat(START, [ESC, OSC], digits + end);
    FeedConcat(s0, digits, end);
    Unit(Feed(Sniffer(OscParam, Min(Decimal(digits), U32_MAX), digits != [], []), end).1);
    Unit(Feed(s0, digits + end).1);
  }

  /** An ESC that no backslash follows gives a sequence up. */
  lemma GivenUp(s: Sniffer, next: byte)
    requires (s.phase == OscParam || s.phase == OscBody) && next != BACKSLASH
    ensures Feed(s, [ESC, next]) == (START, [])
  {
    FeedTwo(s, ESC, next);
    Unit(Step(Step(s, ESC).0, next).1);
  }

  lemma BodyGivenUp(digits: seq<byte>, text: seq<byte>, next: byte)
    requires Digits(digits) && Printable(text) && next != BACKSLASH
    ensures Feed(START, [ESC, OSC] + (digits + ([SEMICOLON] + (text + [ESC, next])))) == (START, [])
  {
    var s1 := Sniffer(OscParam, Min(Decimal(digits), U32_MAX), digits != [], []);
    var s2 := s1.(phase := OscBody);
    CodeEnds(digits, [SEMICOLON] + (text + [ESC, next]));
    FeedOne(s1, SEMICOLON);
    BodyRead(s2, text);
    GivenUp(Feed(s2, text).0, next);
    Unit(Feed(s2, text + [ESC, next]).1);
    Unit(Feed(Feed(s2, text).0, [ESC, next]).1);
    hide Feed, Decimal;
    FeedConcat(s1, [SEMICOLON], text + [ESC, next]);
    FeedConcat(s2, text, [ESC, next]);
  }

  // ── A whole stream ───────────────────────────────────────────────

  datatype Segment =
    | Chatter(plain: seq<byte>)
    | Escape(next: byte)
    | Sequence(digits: seq<byte>, text: seq<byte>, st: bool)
    | Bare(digits: seq<byte>, st: bool)                              // a code without a body
    | Aborted(digits: seq<byte>, other: byte)                        // cut off within the code
    | Unended(digits: seq<byte>, body: Option<seq<byte>>, next: byte) // an ESC that is no terminator

  predicate WellFormed(g: Segment) {
    match g
    case Chatter(plain) => ESC !in plain
    case Escape(next) => next != OSC
    case Sequence(digits, text, _) => digits != [] && Digits(digits) && Printable(text)
    case Bare(digits, _) => digits != [] && Digits(digits)
    case Aborted(digits, other) => Digits(digits) && !IsDigit(other) && other !in {SEMICOLON, BEL, ESC}
    case Unended(digits, body, next) =>
      Digits(digits) && (body.Some? ==> Printable(body.value)) && next != BACKSLASH
  }

  function BytesOf(g: Segment): seq<byte> {
    match g
    case Chatter(plain) => plain
    case Escape(next) => [ESC, next]
    case Sequence(digits, text, st) => Written(digits, text, st)
    case Bare(digits, st) => [ESC, OSC] + (digits + Terminator(st))
    case Aborted(digits, other) => [ESC, OSC] + (digits + [other])
    case Unended(digits, None, next) => [ESC, OSC] + (digits + [ESC, next])
    case Unended(digits, Some(text), next) => [ESC, OSC] + (digits + ([SEMICOLON] + (text + [ESC, next])))
  }

  function OscOf(g: Segment): seq<Osc>
    requires WellFormed(g)
  {
    if g.Sequence? then [Osc(Min(Decimal(g.digits), U32_MAX), g.text[..Min(|g.text|, OSC_BODY_CAP)])]
    else if g.Bare? then [Osc(Min(Decimal(g.digits), U32_MAX), [])]
    else []
  }

  function AllBytes(gs: seq<Segment>): seq<byte> {
    if gs == [] then [] else BytesOf(gs[0]) + AllBytes(gs[1..])
  }

  function AllOsc(gs: seq<Segment>): seq<Osc>
    requires forall g :: g in gs ==> WellFormed(g)
  {
    if gs == [] then [] else OscOf(gs[0]) + AllOsc(gs[1..])
  }

  /** Of a stream of text, other escape sequences and OSC sequences, with a body or without, ended or broken off, cut
      into reads in any way, the sniffer emits every OSC sequence that has a code and an end once, in order, and
      nothing else. */
  lemma StreamSniffed(gs: seq<Segment>, chunks: seq<seq<byte>>)
    requires (forall g :: g in gs ==> WellFormed(g)) && Flatten(chunks) == AllBytes(gs)
    ensures FeedAll(START, chunks) == (START, AllOsc(gs))
  {
    ChunkingIrrelevant(START, chunks);
    SegmentsSniffed(gs);
  }

  lemma {:induction false} SegmentsSniffed(gs: seq<Segment>)
    requires forall g :: g in gs ==> WellFormed(g)
    ensures Feed(START, AllBytes(gs)) == (START, AllOsc(gs))
    decreases |gs|
  {
    if gs != [] {
      assert gs[0] in gs && (forall g :: g in gs[1..] ==> g in gs);
      SegmentSniffed(gs[0]);
      SegmentsSniffed(gs[1..]);
      hide Feed, BytesOf, OscOf, WellFormed;
      FeedConcat(START, BytesOf(gs[0]), AllBytes(gs[1..]));
    }
  }

  lemma SegmentSniffed(g: Segment)
    requires WellFormed(g)
    ensures Feed(START, BytesOf(g)) == (START, OscOf(g))
  {
    match g {
      case Chatter(plain) => ChatterIgnored(plain);
      case Escape(next) => FeedTwo(START, ESC, next); Unit(Step(START, ESC).1);
      case Sequence(digits, text, st) => SequenceEmitted(START, digits, text, st);
      case Bare(digits, st) =>
        CodeEnds(digits, Terminator(st));
        Terminated(Sniffer(OscParam, Min(Decimal(digits), U32_MAX), true, []), st);
      case Aborted(digits, other) =>
        CodeEnds(digits, [other]);
        FeedOne(Sniffer(OscParam, Min(Decimal(digits), U32_MAX), digits != [], []), other);
      case Unended(digits, body, next) =>
        CodeEnds(digits, [ESC, next]);
        GivenUp(Sniffer(OscParam, Min(Decimal(digits), U32_MAX), digits != [], []), next);
        if body.Some? { BodyGivenUp(digits, body.value, next); }
    }
    hide Feed, Written, Decimal;
  }
}
