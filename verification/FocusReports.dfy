// Focus reports stripped from the terminal's input (coredeck-claude/src/main.rs,
// `FocusStripper`).

module FocusReports {
  import opened Prelude

  const ESC: byte := 0x1B
  const BRACKET: byte := 0x5B  // '['
  const FOCUS_IN: byte := 0x49  // 'I'
  const FOCUS_OUT: byte := 0x4F  // 'O'

  datatype Item = Plain(b: byte) | Report(gained: bool)

  /** Is this what is left of a report after its ESC? */
  predicate ReportTail(s: seq<byte>) {
    |s| >= 2 && s[0] == BRACKET && (s[1] == FOCUS_IN || s[1] == FOCUS_OUT)
  }

  /** What the input means: every `ESC [ I` and `ESC [ O` is a report, every other byte is itself. */
  function Scan(s: seq<byte>): seq<Item> {
    if s == [] then []
    else if s[0] == ESC && ReportTail(s[1..]) then [Report(s[2] == FOCUS_IN)] + Scan(s[3..])
    else [Plain(s[0])] + Scan(s[1..])
  }

  function Unscanned(item: Item): seq<byte> {
    match item
    case Plain(b) => [b]
    case Report(gained) => [ESC, BRACKET, if gained then FOCUS_IN else FOCUS_OUT]
  }

  /** The bytes the items came from. */
  function Unscan(items: seq<Item>): seq<byte> {
    if items == [] then [] else Unscanned(items[0]) + Unscan(items[1..])
  }

  /** The bytes that go on to the PTY. */
  function Bytes(items: seq<Item>): seq<byte> {
    if items == [] then []
    else (if items[0].Plain? then [items[0].b] else []) + Bytes(items[1..])
  }

  function Reports(items: seq<Item>): seq<bool> {
    if items == [] then []
    else (if items[0].Report? then [items[0].gained] else []) + Reports(items[1..])
  }

  function Plains(s: seq<byte>): (r: seq<Item>)
    ensures |r| == |s| && forall k :: 0 <= k < |s| ==> r[k] == Plain(s[k])
  {
    seq(|s|, k requires 0 <= k < |s| => Plain(s[k]))
  }

  /** How much of `ESC [` is held: none, one byte or two. */
  type Prefix = n: nat | n <= 2

  function Held(p: Prefix): seq<byte> {
    [ESC, BRACKET][..p]
  }

  /** One byte: what is emitted, and how much is held next. */
  function Step(p: Prefix, b: byte): (seq<Item>, Prefix) {
    if p == 0 then
      if b == ESC then ([], 1) else ([Plain(b)], 0)
    else if p == 1 then
      if b == BRACKET then ([], 2)
      else if b == ESC then ([Plain(ESC)], 1) else ([Plain(ESC), Plain(b)], 0)
    else if b == FOCUS_IN then ([Report(true)], 0)
    else if b == FOCUS_OUT then ([Report(false)], 0)
    else if b == ESC then ([Plain(ESC), Plain(BRACKET)], 1)
    else ([Plain(ESC), Plain(BRACKET), Plain(b)], 0)
  }

  function Feed(p: Prefix, s: seq<byte>): (seq<Item>, Prefix)
    decreases |s|
  {
    if s == [] then ([], p)
    else
      var (items, q) := Step(p, s[0]);
      var (more, r) := Feed(q, s[1..]);
      (items + more, r)
  }

  /** One read: a lone trailing ESC is let go at once, so the Escape key is never delayed. */
  function Read(p: Prefix, s: seq<byte>): (seq<Item>, Prefix) {
    var (items, q) := Feed(p, s);
    if q == 1 then (items + [Plain(ESC)], 0) else (items, q)
  }

  function ReadAll(p: Prefix, chunks: seq<seq<byte>>): (seq<Item>, Prefix)
    decreases |chunks|
  {
    if chunks == [] then ([], p)
    else
      var (items, q) := Read(p, chunks[0]);
      var (more, r) := ReadAll(q, chunks[1..]);
      (items + more, r)
  }

  lemma {:induction false} SplitBytes(a: seq<Item>, b: seq<Item>)
    ensures Bytes(a + b) == Bytes(a) + Bytes(b)
  {
    if a == [] {
      assert a + b == b;
    } else {
      assert (a + b)[0] == a[0] && (a + b)[1..] == a[1..] + b;
      SplitBytes(a[1..], b);
      Regroup(if a[0].Plain? then [a[0].b] else [], Bytes(a[1..]), Bytes(b));
    }
  }

  lemma {:induction false} SplitReports(a: seq<Item>, b: seq<Item>)
    ensures Reports(a + b) == Reports(a) + Reports(b)
  {
    if a == [] {
      assert a + b == b;
    } else {
      assert (a + b)[0] == a[0] && (a + b)[1..] == a[1..] + b;
      SplitReports(a[1..], b);
      Regroup(if a[0].Report? then [a[0].gained] else [], Reports(a[1..]), Reports(b));
    }
  }

  lemma {:induction false} SplitUnscan(a: seq<Item>, b: seq<Item>)
    ensures Unscan(a + b) == Unscan(a) + Unscan(b)
  {
    if a == [] {
      assert a + b == b;
    } else {
      assert (a + b)[0] == a[0] && (a + b)[1..] == a[1..] + b;
      SplitUnscan(a[1..], b);
      Regroup(Unscanned(a[0]), Unscan(a[1..]), Unscan(b));
    }
  }

  lemma SplitItems(a: seq<Item>, b: seq<Item>)
    ensures Bytes(a + b) == Bytes(a) + Bytes(b) && Reports(a + b) == Reports(a) + Reports(b)
        && Unscan(a + b) == Unscan(a) + Unscan(b)
  {
    SplitBytes(a, b);
    SplitReports(a, b);
    SplitUnscan(a, b);
  }

  lemma {:induction false} PlainItems(s: seq<byte>)
    ensures Bytes(Plains(s)) == s && Reports(Plains(s)) == [] && Unscan(Plains(s)) == s
  {
    if s != [] {
      assert Plains(s)[1..] == Plains(s[1..]);
      PlainItems(s[1..]);
    }
  }

  /** What one byte puts out, and holds, is what was held and that byte. */
  lemma StepPutsOut(p: Prefix, b: byte)
    ensures var (items, q) := Step(p, b);
            && Unscan(items) + Held(q) == Held(p) + [b]
            && if p == 2 && (b == FOCUS_IN || b == FOCUS_OUT) then items == [Report(b == FOCUS_IN)]
               else items == Plains(Unscan(items))
  {
    var (items, q) := Step(p, b);
    if items != [] {
      var plain := if p == 0 then [b] else if p == 1 && b != ESC then [ESC, b] else if p == 1 then [ESC]
        else if b == ESC then [ESC, BRACKET] else [ESC, BRACKET, b];
      PlainItems(plain);
      if items[0].Plain? { assert items == Plains(plain); }
    }
  }

  class FocusStripper {
    var pending: seq<byte>

    ghost predicate Valid()
      reads this
    {
      |pending| <= 2 && pending == Held(|pending|) && |pending| != 1
    }

    constructor ()
      ensures Valid() && pending == []
    {
      pending := [];
    }

    /** One byte against what is held: the bytes to forward, the report if it completes one, and what is held next. */
    static method Advance(prefix: Prefix, b: byte) returns (put: seq<byte>, report: seq<bool>, next: Prefix)
      ensures var (items, q) := Step(prefix, b); put == Bytes(items) && report == Reports(items) && next == q
    {
      StepPutsOut(prefix, b);
      PlainItems(Unscan(Step(prefix, b).0));
      put, report, next := [], [], 0;
      if prefix == 0 {
        if b == ESC { next := 1; } else { put := [b]; }
      } else if prefix == 1 {
        if b == BRACKET {
          next := 2;
        } else {
          put := [ESC];
          if b == ESC { next := 1; } else { put := put + [b]; }
        }
      } else if b == FOCUS_IN {
        report := [true];
      } else if b == FOCUS_OUT {
        report := [false];
      } else {
        put := [ESC, BRACKET];
        if b == ESC { next := 1; } else { put := put + [b]; }
      }
    }

    /** Strip one read. What is held back between reads is nothing, or `ESC [`. */
    method Process(buf: seq<byte>) returns (out: seq<byte>, events: seq<bool>)
      requires Valid()
      modifies this
      ensures Valid() && (pending == [] || pending == [ESC, BRACKET])
      ensures var (items, p) := Read(old(|pending|), buf);
          out == Bytes(items) && events == Reports(items) && |pending| == p
    {
      ghost var items: seq<Item> := [];
      PlainItems([]);
      assert Plains([]) == items;
      hide Step, Bytes, Reports, Unscan;
      ghost var start: Prefix := |pending|;
      Unit(Feed(start, buf).0);
      assert buf[0..] == buf;
      var prefix: Prefix := |pending|;
      pending, out, events := [], [], [];
      var i := 0;
      while i < |buf|
        invariant i <= |buf| && pending == [] && out == Bytes(items) && events == Reports(items)
        invariant Feed(start, buf).0 == items + Feed(prefix, buf[i..]).0
            && Feed(start, buf).1 == Feed(prefix, buf[i..]).1
      {
        ghost var step := Step(prefix, buf[i]).0;
        SplitItems(items, step);
        assert buf[i..][1..] == buf[i + 1..];
        Regroup(items, step, Feed(Step(prefix, buf[i]).1, buf[i + 1..]).0);
        var put, report, next := Advance(prefix, buf[i]);
        out, events, prefix, items := out + put, events + report, next, items + step;
        i := i + 1;
      }
      assert buf[i..] == [] && items + [] == items;
      assert Feed(start, buf) == (items, prefix);
      if prefix == 1 {
        SplitItems(items, [Plain(ESC)]);
        PlainItems([ESC]);
        assert Plains([ESC]) == [Plain(ESC)];
        out := out + [ESC];
      } else if prefix == 2 {
        pending := [ESC, BRACKET];
      }
    }
  }

  // ── Conservation, for every chunking ─────────────────────────────

  lemma {:induction false} FeedConserves(p: Prefix, s: seq<byte>)
    ensures Unscan(Feed(p, s).0) + Held(Feed(p, s).1) == Held(p) + s
    decreases |s|
  {
    if s != [] {
      var (items, q) := Step(p, s[0]);
      var (more, r) := Feed(q, s[1..]);
      StepPutsOut(p, s[0]);
      SplitItems(items, more);
      FeedConserves(q, s[1..]);
      hide Step, Held, Unscan;
      Relay(Unscan(items), Held(q), Unscan(more), Held(r), Held(p), [s[0]], s[1..]);
      assert [s[0]] + s[1..] == s;
    } else {
      assert Unscan([]) + Held(p) == Held(p) + [];
    }
  }

  lemma ReadConserves(p: Prefix, s: seq<byte>)
    ensures Unscan(Read(p, s).0) + Held(Read(p, s).1) == Held(p) + s
    ensures Read(p, s).1 != 1
  {
    FeedConserves(p, s);
    SplitItems(Feed(p, s).0, [Plain(ESC)]);
    assert Held(1) == [ESC] && Held(0) == [];
  }

  /** For every chunking whatsoever: the forwarded bytes, the reports put back in their places, and what is
      held make up exactly the input, in order; and nothing but `ESC [` is ever held. */
  lemma {:induction false} NothingLost(p: Prefix, chunks: seq<seq<byte>>)
    requires p != 1
    ensures var (items, q) := ReadAll(p, chunks);
            && Unscan(items) + Held(q) == Held(p) + Flatten(chunks)
            && |Bytes(items)| + 3 * |Reports(items)| + |Held(q)| == |Held(p)| + |Flatten(chunks)|
            && q != 1
    decreases |chunks|
  {
    hide Held, Unscan, Read;
    if chunks != [] {
      var (items, q) := Read(p, chunks[0]);
      var (more, r) := ReadAll(q, chunks[1..]);
      ReadConserves(p, chunks[0]);
      SplitItems(items, more);
      NothingLost(q, chunks[1..]);
      Relay(Unscan(items), Held(q), Unscan(more), Held(r), Held(p), chunks[0], Flatten(chunks[1..]));
    } else {
      NothingYet(p);
    }
    SizeOfItems(ReadAll(p, chunks).0);
    assert |Unscan(ReadAll(p, chunks).0) + Held(ReadAll(p, chunks).1)| == |Held(p) + Flatten(chunks)|;
  }

  lemma NothingYet(p: Prefix)
    ensures Unscan([]) + Held(p) == Held(p) + []
  {
  }

  lemma {:induction false} SizeOfItems(items: seq<Item>)
    ensures |Unscan(items)| == |Bytes(items)| + 3 * |Reports(items)|
  {
    if items != [] { SizeOfItems(items[1..]); }
  }

  // ── Independence of the chunking ─────────────────────────────────

  lemma LoneEscape(rest: seq<byte>)
    ensures Scan([ESC] + rest) == if ReportTail(rest) then [Report(rest[1] == FOCUS_IN)] + Scan(rest[2..])
        else [Plain(ESC)] + Scan(rest)
  {
    var s := [ESC] + rest;
    assert s[1..] == rest;
    if ReportTail(rest) { assert s[3..] == rest[2..]; }
  }

  lemma PlainByte(b: byte, rest: seq<byte>)
    requires b != ESC
    ensures Scan([b] + rest) == [Plain(b)] + Scan(rest)
  {
    assert ([b] + rest)[1..] == rest;
  }

  lemma StepScans(p: Prefix, b: byte, t: seq<byte>)
    ensures var (items, q) := Step(p, b); Scan(Held(p) + [b] + t) == items + Scan(Held(q) + t)
  {
    if b != ESC { PlainByte(b, t); }
    HeldParts();
    assert [] + [b] + t == [b] + t && [] + t == t;
    hide Scan, ReportTail, Held;
    if p == 0 {
      assert b == ESC ==> [] + Scan([ESC] + t) == Scan([ESC] + t);
    } else if p == 1 {
      EscapeScans(b, t);
    } else {
      BracketScans(b, t);
    }
  }

  lemma EscapeScans(b: byte, t: seq<byte>)
    ensures var (items, q) := Step(1, b); Scan([ESC] + [b] + t) == items + Scan(Held(q) + t)
  {
    if b != ESC { PlainByte(b, t); }
    HeldParts();
    AfterEscape(b, t);
    hide Scan, ReportTail, Held;
    if b == BRACKET {
      assert [] + Scan([ESC] + [BRACKET] + t) == Scan([ESC] + [BRACKET] + t);
    } else if b != ESC {
      assert [] + t == t;
      Regroup([Plain(ESC)], [Plain(b)], Scan(t));
    }
  }

  lemma BracketScans(b: byte, t: seq<byte>)
    ensures var (items, q) := Step(2, b); Scan([ESC] + [BRACKET] + [b] + t) == items + Scan(Held(q) + t)
  {
    if b != ESC { PlainByte(b, t); }
    HeldParts();
    AfterBracket(b, t);
    hide Scan, ReportTail, Held;
    assert [] + t == t;
    if b == ESC {
      Regroup([Plain(ESC)], [Plain(BRACKET)], Scan([b] + t));
    } else {
      assert [Plain(ESC)] + ([Plain(BRACKET)] + ([Plain(b)] + Scan(t))) == [Plain(ESC), Plain(BRACKET), Plain(b)]
        + Scan(t);
    }
  }

  lemma HeldParts()
    ensures Held(0) == [] && Held(1) == [ESC] && Held(2) == [ESC] + [BRACKET]
  {
  }

  lemma AfterEscape(b: byte, t: seq<byte>)
    ensures Scan([ESC] + [b] + t) == if b == BRACKET then Scan([ESC] + [BRACKET] + t) else [Plain(ESC)] + Scan([b] + t)
  {
    LoneEscape([b] + t);
    Regroup([ESC], [b], t);
  }

  lemma AfterBracket(b: byte, t: seq<byte>)
    ensures Scan([ESC] + [BRACKET] + [b] + t)
         == if b == FOCUS_IN || b == FOCUS_OUT then [Report(b == FOCUS_IN)] + Scan(t)
                                              else [Plain(ESC)] + ([Plain(BRACKET)] + Scan([b] + t))
  {
    var rest := [BRACKET] + ([b] + t);
    LoneEscape(rest);
    PlainByte(BRACKET, [b] + t);
    assert [ESC] + [BRACKET] + [b] + t == [ESC] + rest;
    assert rest[2..] == t;
    hide Scan;
  }

  lemma {:induction false} FeedScans(p: Prefix, s: seq<byte>, t: seq<byte>)
    ensures var (items, q) := Feed(p, s); Scan(Held(p) + s + t) == items + Scan(Held(q) + t)
    decreases |s|
  {
    hide Step, Held, Scan;
    if s != [] {
      var (items, q) := Step(p, s[0]);
      var (more, r) := Feed(q, s[1..]);
      StepScans(p, s[0], s[1..] + t);
      FeedScans(q, s[1..], t);
      FirstApart(Held(p), s, t);
      Regroup(Held(q), s[1..], t);
      assert items + (more + Scan(Held(r) + t)) == items + more + Scan(Held(r) + t);
    } else {
      assert Held(p) + s + t == Held(p) + t;
    }
  }

  lemma FirstApart(h: seq<byte>, s: seq<byte>, t: seq<byte>)
    requires s != []
    ensures h + s + t == h + [s[0]] + (s[1..] + t)
  {
  }

  lemma EndsHolding(p: Prefix, s: seq<byte>)
    requires p != 1
    ensures Feed(p, s).1 == 1 <==> s != [] && s[|s| - 1] == ESC
    decreases |s|
  {
    HoldsLastEscape(p, s);
  }

  lemma {:induction false} HoldsLastEscape(p: Prefix, s: seq<byte>)
    ensures s != [] ==> (Feed(p, s).1 == 1 <==> s[|s| - 1] == ESC)
    decreases |s|
  {
    if s != [] {
      HoldsLastEscape(Step(p, s[0]).1, s[1..]);
    }
  }

  /** Some read ends between the ESC of a report and the rest of it. */
  predicate SplitReport(chunks: seq<seq<byte>>) {
    chunks != [] &&
    (SplitReport(chunks[1..]) || (chunks[0] != [] && chunks[0][|chunks[0]| - 1] == ESC
      && ReportTail(Flatten(chunks[1..]))))
  }

  lemma HeldScans(p: Prefix)
    requires p != 1
    ensures Scan(Held(p)) == Plains(Held(p))
  {
    if p == 2 {
      LoneEscape([BRACKET]);
      PlainByte(BRACKET, []);
      assert [BRACKET] + [] == [BRACKET];
      assert Held(2) == [ESC] + [BRACKET];
      assert Plains(Held(2)) == [Plain(ESC)] + ([Plain(BRACKET)] + []);
    }
  }

  /** The stripper finds exactly the reports of the whole input, and forwards exactly its other bytes, if and
      only if no read ends between the ESC of a report and its `[I` or `[O`. */
  lemma {:induction false} ChunkingMatters(p: Prefix, chunks: seq<seq<byte>>)
    requires p != 1
    ensures var (items, q) := ReadAll(p, chunks);
            items + Plains(Held(q)) == Scan(Held(p) + Flatten(chunks)) <==> !SplitReport(chunks)
    decreases |chunks|
  {
    if chunks == [] {
      HeldScans(p);
      assert Held(p) + [] == Held(p);
      assert [] + Plains(Held(p)) == Plains(Held(p));
    } else {
      OneMoreRead(p, chunks);
    }
  }

  lemma {:induction false} OneMoreRead(p: Prefix, chunks: seq<seq<byte>>)
    requires p != 1 && chunks != []
    ensures var (items, q) := ReadAll(p, chunks);
            items + Plains(Held(q)) == Scan(Held(p) + Flatten(chunks)) <==> !SplitReport(chunks)
    decreases |chunks|, 0
  {
    assert Held(0) + Flatten(chunks[1..]) == Flatten(chunks[1..]);
    hide Held, Scan, Plains, Feed, ReportTail;
    var rest := Flatten(chunks[1..]);
    var (found, h) := Feed(p, chunks[0]);
    var (items, q) := Read(p, chunks[0]);
    var (more, r) := ReadAll(q, chunks[1..]);
    FeedScans(p, chunks[0], rest);
    EndsHolding(p, chunks[0]);
    ChunkingMatters(q, chunks[1..]);
    Regroup(Held(p), chunks[0], rest);
    Regroup(items, more, Plains(Held(r)));
    EscapeLetGo(found, items, more + Plains(Held(r)), h, rest);
  }

  /** Comparing what the stripper emits with what the input means, across the end of one read. */
  lemma EscapeLetGo(found: seq<Item>, items: seq<Item>, tail: seq<Item>, h: Prefix, rest: seq<byte>)
    requires items == if h == 1 then found + [Plain(ESC)] else found
    ensures items + tail == found + Scan(Held(h) + rest)
       <==> if h == 1 then tail == Scan(rest) && !ReportTail(rest) else tail == Scan(Held(h) + rest)
  {
    if h == 1 {
      LoneEscape(rest);
      assert Held(1) == [ESC];
      hide Scan, ReportTail;
      Regroup(found, [Plain(ESC)], tail);
      SamePrefix(found, [Plain(ESC)] + tail, Scan([ESC] + rest));
      SamePrefix([Plain(ESC)], tail, Scan(rest));
      if ReportTail(rest) { assert ([Plain(ESC)] + tail)[0] != Scan([ESC] + rest)[0]; }
    } else {
      SamePrefix(found, tail, Scan(Held(h) + rest));
    }
  }

  lemma SamePrefix(a: seq<Item>, x: seq<Item>, y: seq<Item>)
    ensures a + x == a + y <==> x == y
  {
    if a + x == a + y {
      assert (a + x)[|a|..] == x && (a + y)[|a|..] == y;
    }
  }

  /** A report cut behind its ESC: all three bytes are forwarded and nobody learns of the focus. */
  lemma CutReportLeaks()
    ensures ReadAll(0, [[ESC], [BRACKET, FOCUS_IN]]) == (Plains([ESC, BRACKET, FOCUS_IN]), 0)
    ensures Scan([ESC, BRACKET, FOCUS_IN]) == [Report(true)]
    ensures SplitReport([[ESC], [BRACKET, FOCUS_IN]])
  {
    var first, second := [ESC], [BRACKET, FOCUS_IN];
    assert second[1..] == [FOCUS_IN] && [first, second][1..] == [second] && Flatten([second]) == second;
    Unit([Plain(FOCUS_IN)]);
    Unit(Step(0, ESC).0);
    assert [Plain(BRACKET)] + [Plain(FOCUS_IN)] == [Plain(BRACKET), Plain(FOCUS_IN)];
    assert [Plain(ESC)] + [Plain(BRACKET), Plain(FOCUS_IN)] == Plains([ESC, BRACKET, FOCUS_IN]);
    assert Feed(0, first) == ([], 1) by { assert Feed(1, first[1..]) == ([], 1); }
    assert Feed(0, [FOCUS_IN]) == ([Plain(FOCUS_IN)], 0) by { assert Feed(0, [FOCUS_IN][1..]) == ([], 0); }
    assert Feed(0, second) == ([Plain(BRACKET), Plain(FOCUS_IN)], 0);
    Unit([Plain(ESC)]);
    Unit([Plain(BRACKET), Plain(FOCUS_IN)]);
    assert ReadAll(0, [second]) == Read(0, second) by { assert ReadAll(0, [second][1..]) == ([], 0); }
    LoneEscape(second);
    assert [ESC] + second == [ESC, BRACKET, FOCUS_IN] && second[2..] == [];
    Unit([Report(true)]);
  }
}
