// Replies whose trailing zeros the transport has trimmed, padded again and
// decoded (hid/device.rs: `parse_theme_dump`, `set_theme`, `get_soft_key`,
// `reset_soft_keys`).

module Replies {
  import opened Prelude
  import opened Packets
  import opened HidReader
  import opened Transport

  /** `Vec::resize` with zeros. */
  function Resize(s: seq<byte>, n: nat): (r: seq<byte>)
    ensures |r| == n
  {
    if |s| >= n then s[..n] else s + Zeros(n - |s|)
  }

  /** Padding a trimmed reply to its length again restores it. */
  lemma RepadRestores(body: seq<byte>, n: nat)
    requires |body| >= n >= |Trim(body)| || |body| == n
    ensures Resize(Trim(body), n) == body[..n]
  {
  }

  lemma TrimOfBody(status: byte, body: seq<byte>)
    ensures var p := Trim([status] + body);
            (if p == [] then 0 else p[0]) == status && (if |p| > 1 then p[1..] else []) == Trim(body)
  {
    var whole, b := [status] + body, Trim(body);
    if b == [] {
      var p := if status == 0 then [] else [status];
      TrimIsLongest(whole, p);
    } else {
      TrimIsLongest(whole, [status] + b);
      assert ([status] + b)[1..] == b;
    }
  }

  /** A reply of a status byte and a body, sent by the device in either mode, is read with its status, and
      with its body up to trailing zeros. */
  lemma ReplyIsRead(cmd: byte, status: byte, body: seq<byte>, mode: Mode, pre: seq<Arrival>, rest: seq<Arrival>,
      ear: Ear, limit: nat)
    requires !DeviceInitiated(cmd) && cmd != ERROR
    requires Delivers(pre, Build(cmd, [status] + body, mode), mode, cmd) && Reads(pre, mode) <= limit
    ensures Respond(pre + rest, mode, cmd, ear, None, limit)
        == (Reply(status, Trim(body)), rest, Overheard(ear, pre, mode))
  {
    hide Respond, Overheard, Delivers, Build;
    RoundTrip(cmd, [status] + body, mode, pre, rest, ear, limit);
    TrimOfBody(status, body);
  }

  // ── Theme colours ────────────────────────────────────────────────

  const MAX_THEME_SLOTS: nat := 64

  datatype Hsv = Hsv(hue: byte, sat: byte, val: byte)
  datatype ThemeColor = ThemeColor(slot: byte, color: Hsv)

  /** The palette as the device lays it out. */
  function Flat(slots: seq<Hsv>): (r: seq<byte>)
    ensures |r| == 3 * |slots|
    ensures forall k :: 0 <= k < |slots| ==>
              r[3 * k] == slots[k].hue && r[3 * k + 1] == slots[k].sat && r[3 * k + 2] == slots[k].val
  {
    if slots == [] then []
    else
      var last := slots[|slots| - 1];
      Flat(slots[..|slots| - 1]) + [last.hue, last.sat, last.val]
  }

  function Numbered(slots: seq<Hsv>): seq<ThemeColor>
    requires |slots| <= 256
  {
    seq(|slots|, k requires 0 <= k < |slots| => ThemeColor(k, slots[k]))
  }

  function SlotAt(data: seq<byte>, k: nat): ThemeColor
    requires 3 * k + 3 < |data| && k < 256
  {
    ThemeColor(k, Hsv(data[3 * k + 1], data[3 * k + 2], data[3 * k + 3]))
  }

  function ParseDump(data: seq<byte>): Result<seq<ThemeColor>> {
    if data == [] then Err("theme dump response is empty")
    else if data[0] > MAX_THEME_SLOTS then Err("theme dump count exceeds sane max")
    else
      var padded := if |data| < 1 + data[0] * 3 then Resize(data, 1 + data[0] * 3) else data;
      Ok(seq(data[0], k requires 0 <= k < data[0] => SlotAt(padded, k)))
  }

  method ParseThemeDump(data: seq<byte>) returns (r: Result<seq<ThemeColor>>)
    ensures r == ParseDump(data)
  {
    if data == [] {
      return Err("theme dump response is empty");
    }
    var count: nat := data[0];
    if count > MAX_THEME_SLOTS {
      return Err("theme dump count exceeds sane max");
    }
    var expected := 1 + count * 3;
    var buf := if |data| < expected then Resize(data, expected) else data;
    var out: seq<ThemeColor> := [];
    for i := 0 to count
      invariant |out| == i && forall k :: 0 <= k < i ==> out[k] == SlotAt(buf, k)
    {
      var off := 1 + i * 3;
      out := out + [ThemeColor(i, Hsv(buf[off], buf[off + 1], buf[off + 2]))];
    }
    assert out == seq(data[0], k requires 0 <= k < data[0] => SlotAt(buf, k));
    return Ok(out);
  }

  /** A palette dump, with anything newer firmware may append, decodes to exactly its colours, black ones too,
      if and only if it has at most 64 slots and is not trimmed down to nothing. */
  lemma ThemeDumpRoundTrip(slots: seq<Hsv>, extra: seq<byte>)
    requires |slots| < 256
    ensures ParseDump(Trim([|slots|] + Flat(slots) + extra)) == Ok(Numbered(slots))
       <==> |slots| <= MAX_THEME_SLOTS && (slots == [] ==> Trim(extra) != [])
  {
    if slots == [] {
      assert [0] + Flat(slots) + extra == [0] + extra;
      TrimOfBody(0, extra);
      assert Numbered(slots) == [];
      var data := Trim([0] + extra);
      if data != [] { assert ParseDump(data).value == []; }
    } else {
      NonEmptyDump(slots, extra);
    }
  }

  /** A dump of no slots is trimmed to nothing, and refused. */
  lemma EmptyDumpRefused()
    ensures Trim([0] + Flat([])) == [] && ParseDump([]).Err?
  {
    TrimIsLongest([0] + Flat([]), []);
  }

  lemma NonEmptyDump(slots: seq<Hsv>, extra: seq<byte>)
    requires 0 < |slots| < 256
    ensures ParseDump(Trim([|slots|] + Flat(slots) + extra)) == Ok(Numbered(slots)) <==> |slots| <= MAX_THEME_SLOTS
  {
    var n: byte, flat := |slots|, Flat(slots);
    var body := [n] + flat + extra;
    var data := Trim(body);
    DumpPadded(body, n);
    hide Flat, Trim, Resize, SlotAt, Numbered;
    if n <= MAX_THEME_SLOTS {
      var padded := if |data| < 1 + n * 3 then Resize(data, 1 + n * 3) else data;
      assert padded[..1 + n * 3] == body[..1 + n * 3] == [n] + flat;
      assert padded[1..1 + n * 3] == ([n] + flat)[1..] == flat;
      SlotsRead(slots, padded);
    }
  }

  /** The count survives the trimming, and the padding restores every slot. */
  lemma DumpPadded(body: seq<byte>, n: byte)
    requires n > 0 && |body| >= 1 + n * 3 && body[0] == n
    ensures var data := Trim(body);
            && data != [] && data[0] == n
            && (|data| < 1 + n * 3 ==> Resize(data, 1 + n * 3) == body[..1 + n * 3])
  {
    var data := Trim(body);
    if |data| < 1 + n * 3 { RepadRestores(body, 1 + n * 3); }
  }

  lemma SlotsRead(slots: seq<Hsv>, padded: seq<byte>)
    requires |slots| <= MAX_THEME_SLOTS
    requires 1 + 3 * |slots| <= |padded| && padded[1..1 + 3 * |slots|] == Flat(slots)
    ensures seq(|slots|, k requires 0 <= k < |slots| => SlotAt(padded, k)) == Numbered(slots)
  {
    forall k | 0 <= k < |slots| ensures SlotAt(padded, k) == ThemeColor(k, slots[k]) {
      SlotRead(slots, padded, k);
    }
    hide SlotAt, Flat;
  }

  lemma SlotRead(slots: seq<Hsv>, padded: seq<byte>, k: nat)
    requires k < |slots| <= MAX_THEME_SLOTS
    requires 1 + 3 * |slots| <= |padded| && padded[1..1 + 3 * |slots|] == Flat(slots)
    ensures SlotAt(padded, k) == ThemeColor(k, slots[k])
  {
    var flat := padded[1..1 + 3 * |slots|];
    assert flat[3 * k] == slots[k].hue && flat[3 * k + 1] == slots[k].sat && flat[3 * k + 2] == slots[k].val;
  }

  /** `set_theme`: the one colour the device echoes. */
  function DecodeSetTheme(data: seq<byte>): ThemeColor {
    var d := Resize(data, 4);
    ThemeColor(d[0], Hsv(d[1], d[2], d[3]))
  }

  lemma SetThemeRoundTrip(slot: byte, c: Hsv)
    ensures DecodeSetTheme(Trim([slot, c.hue, c.sat, c.val])) == ThemeColor(slot, c)
  {
    RepadRestores([slot, c.hue, c.sat, c.val], 4);
  }

  // ── Soft keys ────────────────────────────────────────────────────

  datatype KeyType = Default | Keycode | Text | Sequence
  datatype SoftKey = SoftKey(index: byte, keyType: KeyType, keyData: seq<byte>)

  function KeyTypeOf(b: byte): KeyType {
    if b == 1 then Keycode else if b == 2 then Text else if b == 3 then Sequence else Default
  }

  function CodeOf(t: KeyType): byte {
    match t case Default => 0 case Keycode => 1 case Text => 2 case Sequence => 3
  }

  /** `get_soft_key`, from the data of its reply. */
  function DecodeSoftKey(index: byte, data: seq<byte>): Result<SoftKey> {
    if |data| < 2 then Ok(SoftKey(index, Default, []))
    else if data[0] != index then Err("get_soft_key: reply is for another key")
    else
      var t, rest := KeyTypeOf(data[1]), data[2..];
      var keyData := if t != Text && t != Sequence && |rest| < 2 then Resize(rest, 2) else rest;
      Ok(SoftKey(index, if t == Default && |keyData| == 2 then Keycode else t, keyData))
  }

  lemma TrimOfKey(index: byte, t: byte, keyData: seq<byte>)
    requires t != 0 || Trim(keyData) != []
    ensures Trim([index, t] + keyData) == [index, t] + Trim(keyData)
  {
    TrimIsLongest([index, t] + keyData, [index, t] + Trim(keyData));
  }

  /** A keycode reply decodes to its keycode, low byte 0x00 or not, if and only if it does not come from
      older firmware reporting keycode 0x0000 as Default. */
  lemma KeycodeReplyRoundTrip(index: byte, t: KeyType, hi: byte, lo: byte)
    requires t == Keycode || t == Default
    ensures DecodeSoftKey(index, Trim([index, CodeOf(t)] + [hi, lo])) == Ok(SoftKey(index, Keycode, [hi, lo]))
       <==> t == Keycode || hi != 0 || lo != 0
  {
    var body := [index, CodeOf(t)] + [hi, lo];
    if t == Keycode || Trim([hi, lo]) != [] {
      TrimOfKey(index, CodeOf(t), [hi, lo]);
      RepadRestores([hi, lo], 2);
      assert Trim(body)[2..] == Trim([hi, lo]);
      assert [hi, lo][..2] == [hi, lo];
    } else {
      TrimIsLongest(body, if index == 0 then [] else [index]);
    }
  }

  /** A string or a key sequence decodes to what the device stores if and only if that does not end in 0x00. */
  lemma StoredDataRoundTrip(index: byte, t: KeyType, keyData: seq<byte>)
    requires t == Text || t == Sequence
    ensures DecodeSoftKey(index, Trim([index, CodeOf(t)] + keyData)) == Ok(SoftKey(index, t, keyData))
       <==> keyData == [] || keyData[|keyData| - 1] != 0
  {
    TrimOfKey(index, CodeOf(t), keyData);
    assert Trim([index, CodeOf(t)] + keyData)[2..] == Trim(keyData);
  }

  /** Replies that lose data: keycode 0x0000 reported as Default, and a stored sequence of the one key 0x2900. */
  lemma LostReplies(index: byte)
    ensures DecodeSoftKey(index, Trim([index, 0] + [0, 0])) == Ok(SoftKey(index, Default, []))
    ensures DecodeSoftKey(index, Trim([index, 3] + [1, 0x29, 0])) == Ok(SoftKey(index, Sequence, [1, 0x29]))
  {
    TrimIsLongest([index, 0] + [0, 0], if index == 0 then [] else [index]);
    TrimIsLongest([index, 3] + [1, 0x29, 0], [index, 3] + [1, 0x29]);
    assert ([index, 3] + [1, 0x29])[2..] == [1, 0x29];
  }

  /** A reply for another key is never passed off as this one's, unless it is trimmed below two bytes. */
  lemma StaleReplyRefused(index: byte, other: byte, t: KeyType, keyData: seq<byte>)
    requires index != other
    ensures DecodeSoftKey(index, Trim([other, CodeOf(t)] + keyData)).Err? <==> t != Default || Trim(keyData) != []
  {
    if t != Default || Trim(keyData) != [] {
      TrimOfKey(other, CodeOf(t), keyData);
    } else {
      TrimIsLongest([other, CodeOf(t)] + keyData, if other == 0 then [] else [other]);
    }
  }

  /** `reset_soft_keys`, from the data of its reply: three keys of three bytes. */
  function DecodeReset(data: seq<byte>): seq<SoftKey> {
    var d := if |data| < 9 then Resize(data, 9) else data;
    seq(3, i requires 0 <= i < 3 => ResetKey(d, i))
  }

  function ResetKey(d: seq<byte>, i: nat): SoftKey
    requires i < 3 && |d| >= 9
  {
    var t := KeyTypeOf(d[3 * i]);
    SoftKey(i, t, if t == Keycode || t == Default then [d[3 * i + 1], d[3 * i + 2]] else [])
  }

  method ResetSoftKeys(data: seq<byte>) returns (configs: seq<SoftKey>)
    ensures configs == DecodeReset(data)
  {
    var d := if |data| < 9 then Resize(data, 9) else data;
    configs := [];
    for i := 0 to 3
      invariant |configs| == i && forall k :: 0 <= k < i ==> configs[k] == ResetKey(d, k)
    {
      configs := configs + [ResetKey(d, i)];
    }
  }

  /** A key with a keycode has two bytes of data, any other none. */
  predicate Sized(key: SoftKey) {
    |key.keyData| == if key.keyType == Keycode || key.keyType == Default then 2 else 0
  }

  /** What the device sends of one key after a reset. */
  function ResetBytes(key: SoftKey): (r: seq<byte>)
    requires Sized(key)
    ensures |r| == 3
  {
    [CodeOf(key.keyType)] + if |key.keyData| == 2 then key.keyData else [0, 0]
  }

  /** The three keys of a reset reply decode to what the device reports, whatever zeros they end in. */
  lemma ResetRoundTrip(keys: seq<SoftKey>)
    requires |keys| == 3 && forall i :: 0 <= i < 3 ==> keys[i].index == i && Sized(keys[i])
    ensures DecodeReset(Trim(ResetBytes(keys[0]) + ResetBytes(keys[1]) + ResetBytes(keys[2]))) == keys
  {
    hide ResetBytes, ResetKey, Resize, Trim, DecodeReset, Sized;
    var body := ResetBytes(keys[0]) + ResetBytes(keys[1]) + ResetBytes(keys[2]);
    ThreeParts(ResetBytes(keys[0]), ResetBytes(keys[1]), ResetBytes(keys[2]));
    ResetPadded(body);
    ResetKeyRead(body, keys[0]);
    ResetKeyRead(body, keys[1]);
    ResetKeyRead(body, keys[2]);
    assert keys == [keys[0], keys[1], keys[2]];
  }

  /** A trimmed reply is padded to the nine bytes it was. */
  lemma ResetPadded(body: seq<byte>)
    requires |body| == 9
    ensures DecodeReset(Trim(body)) == [ResetKey(body, 0), ResetKey(body, 1), ResetKey(body, 2)]
  {
    RepadRestores(body, 9);
    assert body[..9] == body;
    hide ResetKey;
  }

  lemma ThreeParts(a: seq<byte>, b: seq<byte>, c: seq<byte>)
    requires |a| == |b| == |c| == 3
    ensures var s := a + b + c; s[..9] == s && s[0..3] == a && s[3..6] == b && s[6..9] == c
  {
  }

  lemma ResetKeyRead(d: seq<byte>, key: SoftKey)
    requires Sized(key)
    requires |d| == 9 && key.index < 3 && d[3 * key.index..3 * key.index + 3] == ResetBytes(key)
    ensures ResetKey(d, key.index) == key
  {
    var at := 3 * key.index;
    assert d[at] == d[at..at + 3][0] && d[at + 1] == d[at..at + 3][1] && d[at + 2] == d[at..at + 3][2];
    if |key.keyData| == 2 {
      assert key.keyData == [d[at + 1], d[at + 2]];
    }
  }
}
