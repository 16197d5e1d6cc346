// What the reader takes for UTF-8 is what encodes a text: every sequence of scalar
// values, and nothing else (Unicode Standard, section 3.9, definition D92).

module Utf8 {
  import opened Prelude
  import opened HidReader

  /** A Unicode scalar value: any code point but a surrogate. */
  type Scalar = n: int | 0 <= n < 0xD800 || 0xE000 <= n < 0x11_0000 witness 0

  /** The encoding form of one scalar value, one to four bytes. */
  function EncodeOne(n: Scalar): (s: seq<byte>)
    ensures s != []
  {
    if n < 0x80 then [n]
    else if n < 0x800 then [0xC0 + n / 0x40, 0x80 + n % 0x40]
    else if n < 0x1_0000 then [0xE0 + n / 0x1000, 0x80 + n / 0x40 % 0x40, 0x80 + n % 0x40]
    else [0xF0 + n / 0x4_0000, 0x80 + n / 0x1000 % 0x40, 0x80 + n / 0x40 % 0x40, 0x80 + n % 0x40]
  }

  function Encode(text: seq<Scalar>): seq<byte> {
    if text == [] then [] else EncodeOne(text[0]) + Encode(text[1..])
  }

  lemma OneMoreIsValid(n: Scalar, rest: seq<byte>)
    ensures ValidUtf8(EncodeOne(n) + rest) <==> ValidUtf8(rest)
  {
    var s := EncodeOne(n) + rest;
    assert s[|EncodeOne(n)|..] == rest;
  }

  /** Encoded text is valid. */
  lemma {:induction false} EncodedIsValid(text: seq<Scalar>)
    ensures ValidUtf8(Encode(text))
  {
    if text != [] {
      EncodedIsValid(text[1..]);
      OneMoreIsValid(text[0], Encode(text[1..]));
    }
  }

  /** The six bits of a continuation byte. */
  function Tail(b: byte): nat
    requires Continues(b)
  {
    b as int - 0x80
  }

  lemma TwoBytes(a: byte, b: byte) returns (n: Scalar)
    requires 0xC2 <= a <= 0xDF && Continues(b)
    ensures EncodeOne(n) == [a, b]
  {
    n := (a as int - 0xC0) * 0x40 + Tail(b);
  }

  lemma ThreeBytes(a: byte, b: byte, c: byte) returns (n: Scalar)
    requires 0xE0 <= a <= 0xEF && Continues(b) && Continues(c) && (a == 0xE0 ==> b >= 0xA0) && (a == 0xED ==> b < 0xA0)
    ensures EncodeOne(n) == [a, b, c]
  {
    n := (a as int - 0xE0) * 0x1000 + Tail(b) * 0x40 + Tail(c);
    assert n / 0x40 == (a as int - 0xE0) * 0x40 + Tail(b);
  }

  lemma FourBytes(a: byte, b: byte, c: byte, d: byte) returns (n: Scalar)
    requires 0xF0 <= a <= 0xF4 && Continues(b) && Continues(c) && Continues(d)
    requires (a == 0xF0 ==> b >= 0x90) && (a == 0xF4 ==> b < 0x90)
    ensures EncodeOne(n) == [a, b, c, d]
  {
    n := (a as int - 0xF0) * 0x4_0000 + Tail(b) * 0x1000 + Tail(c) * 0x40 + Tail(d);
    assert n / 0x40 == (a as int - 0xF0) * 0x1000 + Tail(b) * 0x40 + Tail(c);
    assert n / 0x1000 == (a as int - 0xF0) * 0x40 + Tail(b);
  }

  /** The scalar value at the front of valid bytes. */
  lemma FrontDecoded(s: seq<byte>) returns (n: Scalar)
    requires s != [] && ValidUtf8(s)
    ensures EncodeOne(n) <= s
  {
    var lead: int := s[0];
    if lead < 0x80 {
      n := lead;
    } else if lead < 0xE0 {
      n := TwoBytes(s[0], s[1]);
    } else if lead < 0xF0 {
      n := ThreeBytes(s[0], s[1], s[2]);
    } else {
      n := FourBytes(s[0], s[1], s[2], s[3]);
    }
    hide EncodeOne;
  }

  /** Valid bytes are some text, encoded. */
  lemma {:induction false} ValidIsEncoded(s: seq<byte>) returns (text: seq<Scalar>)
    requires ValidUtf8(s)
    ensures Encode(text) == s
    decreases |s|
  {
    if s == [] {
      text := [];
    } else {
      var n := FrontDecoded(s);
      var rest := s[|EncodeOne(n)|..];
      assert s == EncodeOne(n) + rest;
      OneMoreIsValid(n, rest);
      var more := ValidIsEncoded(rest);
      text := [n] + more;
      assert text[1..] == more;
    }
  }

  /** A TypeString is typed if and only if its bytes encode a text. */
  lemma ValidExactlyIfEncoded(s: seq<byte>)
    ensures ValidUtf8(s) <==> exists text :: Encode(text) == s
  {
    if ValidUtf8(s) { var _ := ValidIsEncoded(s); }
    if text :| Encode(text) == s { EncodedIsValid(text); }
  }
}
