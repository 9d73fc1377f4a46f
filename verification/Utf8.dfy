/** UTF-8 as RFC 3629 defines it, and the two library routines whose agreement `NewServerOutput`
    relies on: `utf8.Valid`, and the JSON string encoder, which replaces each octet that starts no
    valid sequence by U+FFFD. */
module Utf8 {
  import opened Prelude

  /** RFC 3629 section 3: the octets of one scalar value. A Dafny `char` is a Unicode scalar value. */
  function EncodeChar(c: char): (b: seq<byte>)
    ensures 1 <= |b| <= 4
  {
    var n := c as int;
    var h, m, t := n / 64, n / 64 / 64, n / 64 / 64 / 64;
    if n < 0x80 then [n]
    else if n < 0x800 then [0xC0 + h, 0x80 + n % 64]
    else if n < 0x10000 then [0xE0 + m, 0x80 + h % 64, 0x80 + n % 64]
    else [0xF0 + t, 0x80 + m % 64, 0x80 + h % 64, 0x80 + n % 64]
  }

  /** The octets of a text: what a browser holds after decoding a JSON string. */
  function Encode(s: string): seq<byte> {
    if s == [] then [] else EncodeChar(s[0]) + Encode(s[1..])
  }

  predicate Tail(b: byte) { 0x80 <= b <= 0xBF }

  /** RFC 3629 section 4: the length of the UTF8-char at the head of `b`, 0 when there is none. */
  function HeadLength(b: seq<byte>): (n: nat)
    ensures n <= 4 && n <= |b|
  {
    if b == [] then 0
    else if b[0] <= 0x7F then 1
    else if |b| >= 2 && 0xC2 <= b[0] <= 0xDF && Tail(b[1]) then 2
    else if |b| >= 3 && Tail(b[2]) && (
         || (b[0] == 0xE0 && 0xA0 <= b[1] <= 0xBF)
         || (0xE1 <= b[0] <= 0xEC && Tail(b[1]))
         || (b[0] == 0xED && 0x80 <= b[1] <= 0x9F)
         || (0xEE <= b[0] <= 0xEF && Tail(b[1]))) then 3
    else if |b| >= 4 && Tail(b[2]) && Tail(b[3]) && (
         || (b[0] == 0xF0 && 0x90 <= b[1] <= 0xBF)
         || (0xF1 <= b[0] <= 0xF3 && Tail(b[1]))
         || (b[0] == 0xF4 && 0x80 <= b[1] <= 0x8F)) then 4
    else 0
  }

  /** `utf8.Valid`: the octets are a sequence of UTF8-chars (RFC 3629 section 4). */
  predicate Valid(b: seq<byte>) {
    b == [] || (var n := HeadLength(b); n > 0 && Valid(b[n..]))
  }

  const REPLACEMENT: char := '\U{FFFD}'

  /** The number the UTF8-char at the head of `b` stands for. */
  function HeadNumber(b: seq<byte>): (n: int)
    requires HeadLength(b) > 0
    ensures 0 <= n < 0xD800 || 0xE000 <= n < 0x11_0000
  {
    var k := HeadLength(b);
    var b0: int := b[0];
    if k == 1 then b0 else
    var b1: int := b[1];
    if k == 2 then (b0 - 0xC0) * 64 + (b1 - 0x80) else
    var b2: int := b[2];
    if k == 3 then ((b0 - 0xE0) * 64 + (b1 - 0x80)) * 64 + (b2 - 0x80) else
    var b3: int := b[3];
    (((b0 - 0xF0) * 64 + (b1 - 0x80)) * 64 + (b2 - 0x80)) * 64 + (b3 - 0x80)
  }

  /** The scalar value of the UTF8-char at the head of `b`. */
  function HeadChar(b: seq<byte>): char
    requires HeadLength(b) > 0
  {
    HeadNumber(b) as char
  }

  /** The text a JSON string encoder emits for `b`: an octet that starts no UTF8-char becomes U+FFFD. */
  function Decode(b: seq<byte>): string {
    if b == [] then []
    else if HeadLength(b) == 0 then [REPLACEMENT] + Decode(b[1..])
    else [HeadChar(b)] + Decode(b[HeadLength(b)..])
  }

  /** One encoded scalar value is read back, whatever follows it. */
  lemma HeadOfEncoded(c: char, rest: seq<byte>)
    ensures HeadLength(EncodeChar(c) + rest) == |EncodeChar(c)|
    ensures HeadChar(EncodeChar(c) + rest) == c
  {
    var b := EncodeChar(c) + rest;
    assert forall i :: 0 <= i < |EncodeChar(c)| ==> b[i] == EncodeChar(c)[i];
  }

  lemma Digit(q: int, r: int)
    requires 0 <= r < 64
    ensures (q * 64 + r) / 64 == q && (q * 64 + r) % 64 == r
  {
  }

  lemma EncodeHead3(b: seq<byte>)
    requires HeadLength(b) == 3
    ensures EncodeChar(HeadChar(b)) == b[..3]
  {
    var n, q := HeadNumber(b), (b[0] as int - 0xE0) * 64 + (b[1] as int - 0x80);
    Digit(b[0] as int - 0xE0, b[1] as int - 0x80);
    Digit(q, b[2] as int - 0x80);
    assert n / 64 == q && n / 64 / 64 == b[0] as int - 0xE0;
    assert HeadChar(b) as int == n;
  }

  lemma EncodeHead4(b: seq<byte>)
    requires HeadLength(b) == 4
    ensures EncodeChar(HeadChar(b)) == b[..4]
  {
    var n, p := HeadNumber(b), (b[0] as int - 0xF0) * 64 + (b[1] as int - 0x80);
    var q := p * 64 + (b[2] as int - 0x80);
    Digit(b[0] as int - 0xF0, b[1] as int - 0x80);
    Digit(p, b[2] as int - 0x80);
    Digit(q, b[3] as int - 0x80);
    assert n / 64 == q && n / 64 / 64 == p && n / 64 / 64 / 64 == b[0] as int - 0xF0;
    assert HeadChar(b) as int == n;
  }

  /** One UTF8-char is reproduced by encoding its scalar value. */
  lemma EncodeHead(b: seq<byte>)
    requires HeadLength(b) > 0
    ensures EncodeChar(HeadChar(b)) == b[..HeadLength(b)]
  {
    match HeadLength(b) {
      case 3 => EncodeHead3(b);
      case 4 => EncodeHead4(b);
      case _ => Digit(b[0] as int - 0xC0, if |b| > 1 && Tail(b[1]) then b[1] as int - 0x80 else 0);
    }
  }

  /** Every encoded text is valid UTF-8 and decodes to itself. */
  lemma {:induction false} EncodedIsValid(s: string)
    ensures Valid(Encode(s))
    ensures Decode(Encode(s)) == s
  {
    if s != [] {
      EncodedIsValid(s[1..]);
      HeadOfEncoded(s[0], Encode(s[1..]));
      assert Encode(s)[|EncodeChar(s[0])|..] == Encode(s[1..]);
    }
  }

  lemma {:induction false} ValidSurvives(b: seq<byte>)
    requires Valid(b)
    ensures Encode(Decode(b)) == b
    decreases |b|
  {
    if b != [] {
      var n := HeadLength(b);
      ValidSurvives(b[n..]);
      EncodeHead(b);
      assert Decode(b)[1..] == Decode(b[n..]);
    }
  }

  /** Text transport is lossless exactly on valid UTF-8. */
  lemma TextIsLosslessIffValid(b: seq<byte>)
    ensures Valid(b) <==> Encode(Decode(b)) == b
  {
    EncodedIsValid(Decode(b));
    if Valid(b) { ValidSurvives(b); }
  }
}
