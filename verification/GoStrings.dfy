/**
 Go strings: bytes that are read as runes, again and again.

 A `Name` is a string seen through a rune loop or a regexp: a sequence of runes, each a Unicode
 scalar value or a byte that does not belong to any (section 3 of RFC 3629). Deleting runes from
 it joins bytes that were apart, so the next reader may see other runes: `Reread` says which.
 */
module GoStrings {
  import opened Prelude
  import opened Utf8

  datatype Rune = Scalar(c: char) | BadByte(b: byte)

  type Name = seq<Rune>

  function RuneBytes(r: Rune): (b: seq<byte>)
    ensures 1 <= |b| <= 4
  {
    if r.Scalar? then EncodeChar(r.c) else [r.b]
  }

  function NameBytes(n: Name): (b: seq<byte>) {
    if n == [] then [] else RuneBytes(n[0]) + NameBytes(n[1..])
  }

  /** `b` starts with the encoding of `c`. */
  predicate StartsWith(b: seq<byte>, c: char) {
    |EncodeChar(c)| <= |b| && b[..|EncodeChar(c)|] == EncodeChar(c)
  }

  /** utf8.DecodeRune: the scalar value whose encoding stands first, or else one bad byte. */
  function ReadOne(b: seq<byte>): (r: Rune)
    requires b != []
    ensures |RuneBytes(r)| <= |b| && b[..|RuneBytes(r)|] == RuneBytes(r)
    ensures r.BadByte? ==> forall c :: !StartsWith(b, c)
  {
    var c := DecodeOne(b).0;
    if StartsWith(b, c) then Scalar(c)
    else
      NoOtherStart(b);
      BadByte(b[0])
  }

  /** At most one encoding stands first, and the decoder finds it. */
  lemma StartDecodes(b: seq<byte>, c: char)
    requires b != [] && StartsWith(b, c)
    ensures DecodeOne(b).0 == c
  {
    var w := |EncodeChar(c)|;
    DecodeOneEncoded(c, b[w..]);
    assert b == EncodeChar(c) + b[w..];
  }

  lemma NoOtherStart(b: seq<byte>)
    requires b != [] && !StartsWith(b, DecodeOne(b).0)
    ensures forall c :: !StartsWith(b, c)
  {
    forall c
      ensures !StartsWith(b, c)
    {
      if StartsWith(b, c) {
        StartDecodes(b, c);
      }
    }
  }

  lemma ReadScalar(b: seq<byte>, c: char)
    requires b != [] && StartsWith(b, c)
    ensures ReadOne(b) == Scalar(c)
  {
    StartDecodes(b, c);
  }

  /** The runes of a byte string. */
  function Read(b: seq<byte>): (n: Name)
    decreases |b|
  {
    if b == [] then [] else
    var r := ReadOne(b);
    [r] + Read(b[|RuneBytes(r)|..])
  }

  function Reread(n: Name): (n': Name) {
    Read(NameBytes(n))
  }

  /** Valid UTF-8: no bad bytes. */
  ghost predicate AllScalar(n: Name) {
    forall i :: 0 <= i < |n| ==> n[i].Scalar?
  }

  /** What reading its own bytes gives back. */
  ghost predicate Normal(n: Name) {
    Reread(n) == n
  }

  // ---------------------------------------------------------------- reading and writing

  lemma {:induction false} BytesOfRead(b: seq<byte>)
    ensures NameBytes(Read(b)) == b
    decreases |b|
  {
    hide ReadOne, RuneBytes;
    if b != [] {
      var w := |RuneBytes(ReadOne(b))|;
      BytesOfRead(b[w..]);
      assert b == b[..w] + b[w..];
    }
  }

  lemma ReadIsNormal(b: seq<byte>)
    ensures Normal(Read(b))
  {
    BytesOfRead(b);
  }

  lemma ReadCons(r: Rune, rest: seq<byte>)
    requires ReadOne(RuneBytes(r) + rest) == r
    ensures Read(RuneBytes(r) + rest) == [r] + Read(rest)
  {
    hide ReadOne, RuneBytes;
    assert (RuneBytes(r) + rest)[|RuneBytes(r)|..] == rest;
  }

  lemma ReadScalarCons(c: char, rest: seq<byte>)
    ensures ReadOne(EncodeChar(c) + rest) == Scalar(c)
    ensures Read(EncodeChar(c) + rest) == [Scalar(c)] + Read(rest)
  {
    hide EncodeChar, ReadOne, Read;
    assert (EncodeChar(c) + rest)[..|EncodeChar(c)|] == EncodeChar(c);
    ReadScalar(EncodeChar(c) + rest, c);
    ReadCons(Scalar(c), rest);
  }

  /** Valid text is read back rune by rune. */
  lemma {:induction false} ScalarsAreNormal(n: Name)
    requires AllScalar(n)
    ensures Normal(n)
  {
    hide EncodeChar, ReadOne, Read;
    if n == [] {
      assert Read([]) == [] by { ReadNothing(); }
    } else {
      ScalarsAreNormal(n[1..]);
      ReadScalarCons(n[0].c, NameBytes(n[1..]));
    }
  }

  lemma ReadNothing()
    ensures Read([]) == []
  {
  }

  /** The text of a name without bad bytes. */
  function Characters(n: Name): (s: string)
    ensures |s| == |n| && forall i :: 0 <= i < |n| && n[i].Scalar? ==> s[i] == n[i].c
  {
    seq(|n|, i requires 0 <= i < |n| => if n[i].Scalar? then n[i].c else REPLACEMENT_CHAR)
  }

  lemma {:induction false} ScalarBytes(n: Name)
    requires AllScalar(n)
    ensures NameBytes(n) == Encode(Characters(n))
  {
    hide EncodeChar;
    if n != [] {
      ScalarBytes(n[1..]);
      assert Characters(n)[1..] == Characters(n[1..]);
    }
  }

  /** Whatever a TextEncoder sends is valid. */
  lemma {:induction false} EncodedIsScalar(s: string)
    ensures AllScalar(Read(Encode(s))) && Characters(Read(Encode(s))) == s
  {
    hide EncodeChar, ReadOne, Read;
    if s == [] {
      ReadNothing();
    } else {
      EncodedIsScalar(s[1..]);
      ReadScalarCons(s[0], Encode(s[1..]));
    }
  }

  // ---------------------------------------------------------------- parts of normal names

  lemma TailNormal(n: Name)
    requires Normal(n) && n != []
    ensures Normal(n[1..]) && ReadOne(NameBytes(n)) == n[0]
  {
    hide ReadOne, RuneBytes;
    var b := NameBytes(n);
    assert Read(b)[0] == ReadOne(b);
    assert b[|RuneBytes(n[0])|..] == NameBytes(n[1..]);
    assert Read(b)[1..] == Read(NameBytes(n[1..]));
  }

  lemma ConsNormal(r: Rune, n: Name)
    requires Normal(n) && ReadOne(RuneBytes(r) + NameBytes(n)) == r
    ensures Normal([r] + n)
  {
    hide ReadOne, RuneBytes, Read;
    ReadCons(r, NameBytes(n));
    assert ([r] + n)[1..] == n;
  }

  /** What does not start an encoding does not start one with less behind it. */
  lemma ReadPrefix(r: Rune, shorter: seq<byte>, longer: seq<byte>)
    requires |shorter| <= |longer| && longer[..|shorter|] == shorter
    requires ReadOne(RuneBytes(r) + longer) == r
    ensures ReadOne(RuneBytes(r) + shorter) == r
  {
    if r.Scalar? {
      ReadScalarCons(r.c, shorter);
    } else {
      var s, l := [r.b] + shorter, [r.b] + longer;
      assert l[..|s|] == s;
      var got := ReadOne(s);
      if got.Scalar? {
        assert StartsWith(l, got.c);
      }
    }
  }

  lemma {:induction false} BytesOfPrefix(n: Name, k: nat)
    requires k <= |n|
    ensures |NameBytes(n[..k])| <= |NameBytes(n)| && NameBytes(n)[..|NameBytes(n[..k])|] == NameBytes(n[..k])
  {
    hide RuneBytes;
    if k > 0 {
      BytesOfPrefix(n[1..], k - 1);
      assert n[..k][1..] == n[1..][..k - 1];
    }
  }

  lemma {:induction false} PrefixNormal(n: Name, k: nat)
    requires Normal(n) && k <= |n|
    ensures Normal(n[..k])
    decreases k
  {
    hide ReadOne, RuneBytes, Read;
    if k == 0 {
      ReadNothing();
    } else {
      TailNormal(n);
      PrefixNormal(n[1..], k - 1);
      BytesOfPrefix(n[1..], k - 1);
      ReadPrefix(n[0], NameBytes(n[1..][..k - 1]), NameBytes(n[1..]));
      ConsNormal(n[0], n[1..][..k - 1]);
      assert n[..k] == [n[0]] + n[1..][..k - 1];
    }
  }

  lemma {:induction false} SuffixNormal(n: Name, k: nat)
    requires Normal(n) && k <= |n|
    ensures Normal(n[k..])
    decreases k
  {
    hide Normal;
    if k == 0 {
      assert n[0..] == n;
    } else {
      TailNormal(n);
      SuffixNormal(n[1..], k - 1);
      assert n[k..] == n[1..][k - 1..];
    }
  }

  // ---------------------------------------------------------------- what rereading can join

  predicate Continuation(b: byte) {
    0x80 <= b as int <= 0xBF
  }

  /** Only the first byte of an encoding is not a continuation byte. */
  lemma EncodingShape(c: char)
    ensures !Continuation(EncodeChar(c)[0])
    ensures forall i :: 1 <= i < |EncodeChar(c)| ==> Continuation(EncodeChar(c)[i])
    ensures (EncodeChar(c)[0] as int < 0x80) <==> (c as int < 0x80)
    ensures c as int < 0x80 ==> |EncodeChar(c)| == 1
  {
  }

  /** Continuation bytes at the front of a name's bytes are bad bytes of the name. */
  lemma {:induction false} ContinuationsAreBad(n: Name, k: nat)
    requires k <= |NameBytes(n)| && forall i :: 0 <= i < k ==> Continuation(NameBytes(n)[i])
    ensures k <= |n| && (forall i :: 0 <= i < k ==> n[i].BadByte?)
    ensures NameBytes(n)[..k] == NameBytes(n[..k]) && NameBytes(n)[k..] == NameBytes(n[k..])
    decreases k
  {
    hide NameBytes, Continuation;
    var b := NameBytes(n);
    if k == 0 {
      assert n[..0] == [] && n[0..] == n && b[0..] == b;
      NoBytes();
    } else {
      FrontIsBad(n);
      var rest := NameBytes(n[1..]);
      assert forall i :: 0 <= i < k - 1 ==> rest[i] == b[i + 1];
      ContinuationsAreBad(n[1..], k - 1);
      OneOff(n, k);
      OneOff(b, k);
      ConsBytes(n[0], n[1..][..k - 1]);
    }
  }

  lemma NoBytes()
    ensures NameBytes([]) == []
  {
  }

  lemma ConsBytes(r: Rune, n: Name)
    ensures NameBytes([r] + n) == RuneBytes(r) + NameBytes(n)
  {
    assert ([r] + n)[1..] == n;
  }

  lemma OneOff<T>(s: seq<T>, k: nat)
    requires 0 < k <= |s|
    ensures s[..k] == [s[0]] + s[1..][..k - 1] && s[k..] == s[1..][k - 1..] && s[..k][1..] == s[1..][..k - 1]
  {
  }

  lemma FrontIsBad(n: Name)
    requires NameBytes(n) != [] && Continuation(NameBytes(n)[0])
    ensures n != [] && n[0].BadByte? && NameBytes(n) == [n[0].b] + NameBytes(n[1..])
    ensures NameBytes(n)[1..] == NameBytes(n[1..])
  {
    hide EncodeChar;
    assert NameBytes(n)[0] == RuneBytes(n[0])[0];
    if n[0].Scalar? {
      EncodingShape(n[0].c);
    }
  }

  /** A rune that a bad byte starts is made of that byte and bad bytes right behind it. */
  lemma JoinedBytes(x: byte, n: Name, c: char)
    requires StartsWith([x] + NameBytes(n), c)
    ensures var k := |EncodeChar(c)| - 1;
            && k <= |n| && (forall i :: 0 <= i < k ==> n[i].BadByte?)
            && EncodeChar(c) == [x] + NameBytes(n[..k])
            && ([x] + NameBytes(n))[k + 1..] == NameBytes(n[k..])
    ensures x as int < 0x80 <==> c as int < 0x80
  {
    hide EncodeChar, NameBytes;
    EncodingShape(c);
    var k := |EncodeChar(c)| - 1;
    FrontOf(x, NameBytes(n), EncodeChar(c), k);
    ContinuationsAreBad(n, k);
  }

  lemma FrontOf(x: byte, rest: seq<byte>, e: seq<byte>, k: nat)
    requires |e| == k + 1 && k <= |rest| && ([x] + rest)[..k + 1] == e
    ensures e == [x] + rest[..k] && e[0] == x && ([x] + rest)[k + 1..] == rest[k..]
    ensures forall i :: 0 <= i < k ==> rest[i] == e[i + 1]
  {
    var b := [x] + rest;
    assert b[..k + 1] == [x] + rest[..k];
    assert forall i :: 0 <= i < k ==> rest[i] == b[i + 1] && b[i + 1] == e[i + 1];
  }

  /** The first rune of a rereading: the first rune of the name, or one joined from its first k bad bytes. */
  lemma RereadStep(n: Name) returns (r: Rune, k: nat)
    requires n != [] && (n[0].BadByte? ==> n[0].b as int >= 0x80)
    ensures 1 <= k <= |n| && Reread(n) == [r] + Reread(n[k..])
    ensures (k == 1 && r == n[0]) || (r.Scalar? && r.c as int >= 0x80)
  {
    hide EncodeChar, ReadOne, Read;
    if n[0].Scalar? {
      ReadScalarCons(n[0].c, NameBytes(n[1..]));
      return n[0], 1;
    }
    var b := NameBytes(n);
    assert b == [n[0].b] + NameBytes(n[1..]);
    UnfoldRead(b);
    r := ReadOne(b);
    if r.Scalar? {
      JoinedBytes(n[0].b, n[1..], r.c);
      k := |EncodeChar(r.c)|;
      assert n[k..] == n[1..][k - 1..];
    } else {
      k := 1;
      assert b[1..] == NameBytes(n[1..]);
    }
  }

  /**
   Rereading never makes a name longer; what it adds is runes above ASCII joined from bad bytes.
   */
  lemma {:induction false} RereadJoins(n: Name)
    requires forall i :: 0 <= i < |n| && n[i].BadByte? ==> n[i].b as int >= 0x80
    ensures |Reread(n)| <= |n|
    ensures forall r :: r in Reread(n) ==> r in n || (r.Scalar? && r.c as int >= 0x80)
    decreases |n|
  {
    hide Reread;
    if n == [] {
      RereadNothing();
    } else {
      var r, k := RereadStep(n);
      RereadJoins(n[k..]);
    }
  }

  lemma RereadNothing()
    ensures Reread([]) == []
  {
  }

  lemma UnfoldRead(b: seq<byte>)
    requires b != []
    ensures Read(b) == [ReadOne(b)] + Read(b[|RuneBytes(ReadOne(b))|..])
  {
  }

  /** A bad byte of a normal name is not an ASCII byte. */
  lemma {:induction false} BadIsHigh(n: Name, i: nat)
    requires Normal(n) && i < |n| && n[i].BadByte?
    ensures n[i].b as int >= 0x80
  {
    SuffixNormal(n, i);
    var t := n[i..];
    TailNormal(t);
    var b := NameBytes(t);
    assert b[0] == t[0].b;
    if b[0] as int < 0x80 {
      AsciiStarts(b);
    }
  }

  lemma AsciiStarts(b: seq<byte>)
    requires b != [] && b[0] as int < 0x80
    ensures StartsWith(b, b[0] as char)
  {
    assert EncodeChar(b[0] as char) == [b[0]] == b[..1];
  }
}
