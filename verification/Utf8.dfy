/**
 UTF-8: the encoder of section 3 of RFC 3629, and the decoder that a browser's TextDecoder
 runs (the WHATWG Encoding Standard, section 8.1.1), which replaces malformed input by U+FFFD
 and drops a leading byte order mark.
 */
module Utf8 {
  import opened Prelude

  const REPLACEMENT_CHAR := '\U{FFFD}'
  const BYTE_ORDER_MARK := '\U{FEFF}'

  function EncodeChar(c: char): (b: seq<byte>)
    ensures 1 <= |b| <= 4
  {
    var n := c as int;
    if n < 0x80 then [n as byte]
    else if n < 0x800 then [(0xC0 + n / 0x40) as byte, (0x80 + n % 0x40) as byte]
    else if n < 0x10000 then
      [(0xE0 + n / 0x1000) as byte, (0x80 + n / 0x40 % 0x40) as byte, (0x80 + n % 0x40) as byte]
    else
      [(0xF0 + n / 0x40000) as byte, (0x80 + n / 0x1000 % 0x40) as byte,
       (0x80 + n / 0x40 % 0x40) as byte, (0x80 + n % 0x40) as byte]
  }

  function Encode(s: string): (b: seq<byte>) {
    if s == [] then [] else EncodeChar(s[0]) + Encode(s[1..])
  }

  /** Continuation bytes a lead byte asks for; 0 stands for "not a lead byte". */
  function Needed(lead: int): (n: nat)
    ensures n <= 3
  {
    if 0xC2 <= lead <= 0xDF then 1
    else if 0xE0 <= lead <= 0xEF then 2
    else if 0xF0 <= lead <= 0xF4 then 3
    else 0
  }

  /** Bounds of the first continuation byte, narrowed to rule out overlong forms and surrogates. */
  function Lower(lead: int): (n: int) {
    if lead == 0xE0 then 0xA0 else if lead == 0xF0 then 0x90 else 0x80
  }

  function Upper(lead: int): (n: int) {
    if lead == 0xED then 0x9F else if lead == 0xF4 then 0x8F else 0xBF
  }

  predicate Continues(b: seq<byte>, i: nat, lo: int, hi: int) {
    i < |b| && lo <= b[i] as int <= hi
  }

  function ToChar(n: int): (c: char) {
    if 0 <= n < 0xD800 || 0xE000 <= n < 0x11_0000 then n as char else REPLACEMENT_CHAR
  }

  /** One code point and the number of bytes it took. */
  function DecodeOne(b: seq<byte>): (r: (char, nat))
    requires b != []
    ensures 1 <= r.1 <= |b|
  {
    var lead := b[0] as int;
    var needed := Needed(lead);
    if lead < 0x80 then (lead as char, 1)
    else if needed == 0 then (REPLACEMENT_CHAR, 1)
    else if !Continues(b, 1, Lower(lead), Upper(lead)) then (REPLACEMENT_CHAR, 1)
    else
      var second := b[1] as int - 0x80;
      if needed == 1 then (ToChar((lead - 0xC0) * 0x40 + second), 2)
      else if !Continues(b, 2, 0x80, 0xBF) then (REPLACEMENT_CHAR, 2)
      else
        var third := b[2] as int - 0x80;
        if needed == 2 then (ToChar((lead - 0xE0) * 0x1000 + second * 0x40 + third), 3)
        else if !Continues(b, 3, 0x80, 0xBF) then (REPLACEMENT_CHAR, 3)
        else (ToChar((lead - 0xF0) * 0x40000 + second * 0x1000 + third * 0x40 + (b[3] as int - 0x80)), 4)
  }

  function Decode(b: seq<byte>): (s: string)
    decreases |b|
  {
    if b == [] then [] else
    var r := DecodeOne(b);
    [r.0] + Decode(b[r.1..])
  }

  predicate StartsWithBom(b: seq<byte>) {
    |b| >= 3 && b[0] == 0xEF && b[1] == 0xBB && b[2] == 0xBF
  }

  /** TextDecoder.decode. */
  function Text(b: seq<byte>): (s: string) {
    if StartsWithBom(b) then Decode(b[3..]) else Decode(b)
  }

  /** Base-64 digits: dropping two digits is dropping one twice, and likewise for three. */
  lemma DropTwo(n: nat)
    ensures n / 0x1000 == n / 0x40 / 0x40
  {
  }

  lemma DropThree(n: nat)
    ensures n / 0x40000 == n / 0x1000 / 0x40
  {
  }

  lemma ThreeDigits(n: nat)
    ensures n == n / 0x1000 * 0x1000 + n / 0x40 % 0x40 * 0x40 + n % 0x40
  {
    DropTwo(n);
    var q := n / 0x40;
    assert q == q / 0x40 * 0x40 + q % 0x40;
  }

  lemma FourDigits(n: nat)
    ensures n == n / 0x40000 * 0x40000 + n / 0x1000 % 0x40 * 0x1000 + n / 0x40 % 0x40 * 0x40 + n % 0x40
  {
    ThreeDigits(n);
    DropThree(n);
    var q := n / 0x1000;
    assert q == q / 0x40 * 0x40 + q % 0x40;
  }

  lemma DecodeTwo(c: char, rest: seq<byte>)
    requires 0x80 <= c as int < 0x800
    ensures DecodeOne(EncodeChar(c) + rest) == (c, 2)
  {
    var n, b := c as int, EncodeChar(c) + rest;
    assert b[0] as int == 0xC0 + n / 0x40 && b[1] as int == 0x80 + n % 0x40;
  }

  lemma DecodeThree(c: char, rest: seq<byte>)
    requires 0x800 <= c as int < 0x10000
    ensures DecodeOne(EncodeChar(c) + rest) == (c, 3)
  {
    var n, b := c as int, EncodeChar(c) + rest;
    var x, y, z := n / 0x1000, n / 0x40 % 0x40, n % 0x40;
    ThreeDigits(n);
    assert b[0] as int == 0xE0 + x && b[1] as int == 0x80 + y && b[2] as int == 0x80 + z;
    hide EncodeChar;
  }

  lemma DecodeFour(c: char, rest: seq<byte>)
    requires 0x10000 <= c as int
    ensures DecodeOne(EncodeChar(c) + rest) == (c, 4)
  {
    var n, b := c as int, EncodeChar(c) + rest;
    var w, x, y, z := n / 0x40000, n / 0x1000 % 0x40, n / 0x40 % 0x40, n % 0x40;
    FourDigits(n);
    assert b[0] as int == 0xF0 + w && b[1] as int == 0x80 + x;
    assert b[2] as int == 0x80 + y && b[3] as int == 0x80 + z;
    hide EncodeChar;
  }

  lemma DecodeOneEncoded(c: char, rest: seq<byte>)
    ensures DecodeOne(EncodeChar(c) + rest) == (c, |EncodeChar(c)|)
  {
    var n := c as int;
    if 0x80 <= n < 0x800 {
      DecodeTwo(c, rest);
    } else if 0x800 <= n < 0x10000 {
      DecodeThree(c, rest);
    } else if 0x10000 <= n {
      DecodeFour(c, rest);
    }
  }

  lemma {:induction false} DecodeEncoded(s: string)
    ensures Decode(Encode(s)) == s
  {
    if s != [] {
      DecodeOneEncoded(s[0], Encode(s[1..]));
      assert Encode(s)[|EncodeChar(s[0])|..] == Encode(s[1..]);
      DecodeEncoded(s[1..]);
    }
  }

  lemma BomOnlyFromBom(s: string)
    requires s != []
    ensures StartsWithBom(Encode(s)) <==> s[0] == BYTE_ORDER_MARK
  {
    var n := s[0] as int;
    var b := Encode(s);
    assert b[..|EncodeChar(s[0])|] == EncodeChar(s[0]);
    assert b[0] == EncodeChar(s[0])[0];
    if 0x800 <= n < 0x10000 {
      assert b[1] == EncodeChar(s[0])[1] && b[2] == EncodeChar(s[0])[2];
    }
  }

  /** What the browser shows for encoded text: the text, minus a leading byte order mark. */
  lemma TextOfEncoded(s: string)
    ensures Text(Encode(s)) == if s != [] && s[0] == BYTE_ORDER_MARK then s[1..] else s
  {
    DecodeEncoded(s);
    if s != [] {
      BomOnlyFromBom(s);
      if s[0] == BYTE_ORDER_MARK {
        assert Encode(s)[3..] == Encode(s[1..]);
        DecodeEncoded(s[1..]);
      }
    }
  }

  lemma TextOfNothing()
    ensures Text([]) == ""
  {
  }

  /** One encoding of each length, from section 3 of RFC 3629 and its kind. */
  lemma SampleEncodings()
    ensures EncodeChar('A') == [0x41] && EncodeChar('\U{E9}') == [0xC3, 0xA9]
    ensures EncodeChar('\U{20AC}') == [0xE2, 0x82, 0xAC] && EncodeChar('\U{1F388}') == [0xF0, 0x9F, 0x8E, 0x88]
  {
  }
}
