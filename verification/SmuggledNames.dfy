/**
 Nicknames that get past the sanitizer: three messages of invalid UTF-8 whose bad bytes meet
 only after the passes that would have caught the rune they form.
 */
module SmuggledNames {
  import opened Prelude
  import opened GoStrings
  import opened Nicknames
  import Utf8

  // ---------------------------------------------------------------- reading concrete bytes

  /** A continuation byte without lead, or a lead byte without continuation, is a bad byte. */
  lemma ReadBadCons(x: byte, rest: seq<byte>)
    requires Continuation(x) || (x as int >= 0x80 && (rest == [] || !Continuation(rest[0])))
    ensures Read([x] + rest) == [BadByte(x)] + Read(rest)
  {
    hide Utf8.EncodeChar, Utf8.DecodeOne;
    var b := [x] + rest;
    var r := ReadOne(b);
    if r.Scalar? {
      StartShape(b, r.c);
    }
    assert b[1..] == rest;
  }

  lemma StartShape(b: seq<byte>, c: char)
    requires StartsWith(b, c)
    ensures !Continuation(b[0]) && (b[0] as int >= 0x80 ==> |b| >= 2 && Continuation(b[1]))
  {
    EncodingShape(c);
    var e := Utf8.EncodeChar(c);
    assert b[0] == b[..|e|][0];
    if c as int >= 0x80 {
      assert b[1] == b[..|e|][1];
    }
  }

  /** Scalars, stray continuation bytes, and lead bytes that nothing continues. */
  predicate Seated(n: Name) {
    forall i :: 0 <= i < |n| ==> SeatedAt(n, i)
  }

  predicate SeatedAt(n: Name, i: nat)
    requires i < |n|
  {
    n[i].BadByte? ==>
      || Continuation(n[i].b)
      || (n[i].b as int >= 0x80 && (i + 1 == |n| || !Continuation(RuneBytes(n[i + 1])[0])))
  }

  lemma SeatedTail(n: Name)
    requires n != [] && Seated(n)
    ensures Seated(n[1..])
  {
    forall i | 0 <= i < |n| - 1
      ensures SeatedAt(n[1..], i)
    {
      assert SeatedAt(n, i + 1);
    }
  }

  lemma {:induction false} SeatedIsNormal(n: Name)
    requires Seated(n)
    ensures Normal(n)
  {
    hide Utf8.EncodeChar, ReadOne, Read;
    if n == [] {
      ReadNothing();
    } else {
      SeatedTail(n);
      SeatedIsNormal(n[1..]);
      var rest := NameBytes(n[1..]);
      if n[0].Scalar? {
        ReadScalarCons(n[0].c, rest);
      } else {
        assert SeatedAt(n, 0);
        assert n[1..] != [] ==> rest[0] == RuneBytes(n[1])[0];
        ReadBadCons(n[0].b, rest);
      }
    }
  }

  /** The bytes of a name all of whose runes take one byte. */
  lemma {:induction false} SingleBytes(n: Name, b: seq<byte>)
    requires |b| == |n| && forall i :: 0 <= i < |n| ==> RuneBytes(n[i]) == [b[i]]
    ensures NameBytes(n) == b
  {
    hide RuneBytes;
    if n != [] {
      SingleBytes(n[1..], b[1..]);
      assert b == [b[0]] + b[1..];
    }
  }

  lemma ReadsAs(b: seq<byte>, n: Name)
    requires |b| == |n| && (forall i :: 0 <= i < |n| ==> RuneBytes(n[i]) == [b[i]]) && Seated(n)
    ensures Read(b) == n
  {
    SingleBytes(n, b);
    SeatedIsNormal(n);
  }

  lemma {:induction false} BytesConcat(a: Name, b: Name)
    ensures NameBytes(a + b) == NameBytes(a) + NameBytes(b)
  {
    hide RuneBytes;
    if a == [] {
      assert a + b == b;
    } else {
      assert (a + b)[1..] == a[1..] + b;
      BytesConcat(a[1..], b);
    }
  }

  /** Bad bytes and the rune they form are the same bytes, wherever they stand. */
  lemma SameBytes(front: Name, bad: Name, c: char, back: Name)
    requires |bad| == |Utf8.EncodeChar(c)|
    requires forall i :: 0 <= i < |bad| ==> bad[i] == BadByte(Utf8.EncodeChar(c)[i])
    ensures NameBytes(front + bad + back) == NameBytes(front + [Scalar(c)] + back)
  {
    hide Utf8.EncodeChar, NameBytes;
    SingleBytes(bad, Utf8.EncodeChar(c));
    OneRune(Scalar(c));
    BytesConcat(front, bad);
    BytesConcat(front, [Scalar(c)]);
    BytesConcat(front + bad, back);
    BytesConcat(front + [Scalar(c)], back);
  }

  lemma OneRune(r: Rune)
    ensures NameBytes([r]) == RuneBytes(r)
  {
    assert [r][1..] == [];
  }

  // ---------------------------------------------------------------- one deletion in a scrub

  lemma {:induction false} RemoveOne(front: Name, r: Rune, back: Name, drop: Rune -> bool)
    requires drop(r)
    requires forall i :: 0 <= i < |front| ==> !drop(front[i])
    requires forall i :: 0 <= i < |back| ==> !drop(back[i])
    ensures Remove(front + [r] + back, drop) == front + back
  {
    var s := front + [r] + back;
    if front == [] {
      assert s[1..] == back && front + back == back;
      RemoveNothing(back, drop);
    } else {
      assert s[1..] == front[1..] + [r] + back;
      RemoveOne(front[1..], r, back, drop);
      assert front + back == [front[0]] + (front[1..] + back);
    }
  }

  ghost predicate NoSpaces(s: Name) {
    forall i :: 0 <= i < |s| ==> !IsSpace(s[i])
  }

  lemma ScrubVia(s: Name, u: Name, v: Name, w: Name)
    requires Decontrol(s) == u && Unveil(u) == v && Unmark(v) == w
    requires NoSpaces(v) && NoSpaces(w) && AllHarmless(w)
    ensures Scrub(s) == w
  {
    hide Decontrol, Unveil, Unmark;
    assert Trim(v) == v && Trim(w) == w;
    assert NoDoubleBlank(w) by { assert IsSpace(SPACE); }
    CollapseNothing(w);
  }

  lemma DeletesTo(front: Name, r: Rune, back: Name, t: Name, drop: Rune -> bool)
    requires drop(r) && Seated(t) && NameBytes(t) == NameBytes(front + back)
    requires forall i :: 0 <= i < |front + back| ==> !drop((front + back)[i])
    ensures Reread(Remove(front + [r] + back, drop)) == t
  {
    hide Reread, Remove, NameBytes;
    assert forall i :: 0 <= i < |front| ==> front[i] == (front + back)[i];
    assert forall i :: 0 <= i < |back| ==> back[i] == (front + back)[|front| + i];
    RemoveOne(front, r, back, drop);
    SeatedIsNormal(t);
    SameReading(t, front + back);
  }

  ghost predicate Lacks(s: Name, drop: Rune -> bool) {
    forall i :: 0 <= i < |s| ==> !drop(s[i])
  }

  lemma Untouched(s: Name, drop: Rune -> bool)
    requires Seated(s) && Lacks(s, drop)
    ensures Reread(Remove(s, drop)) == s
  {
    SeatedIsNormal(s);
    DeleteNothing(s, drop);
  }

  /** The scrub of a name in which one control character is forbidden, and what its bytes then spell. */
  lemma ScrubControl(front: Name, r: Rune, back: Name, t: Name)
    requires IsControl(r) && Lacks(front + back, IsControl)
    requires Seated(t) && NameBytes(t) == NameBytes(front + back)
    requires NoSpaces(t) && AllHarmless(t) && Lacks(t, IsInvisible)
    ensures Scrub(front + [r] + back) == t
  {
    hide Scrub, Reread, Remove, NameBytes, IsControl, IsInvisible, IsSpace, Seated;
    DeletesTo(front, r, back, t, IsControl);
    Untouched(t, IsInvisible);
    Untouched(t, IsHtml);
    ScrubVia(front + [r] + back, t, t, t);
  }

  lemma ScrubInvisible(front: Name, r: Rune, back: Name, t: Name)
    requires IsInvisible(r) && Lacks(front + back, IsInvisible)
    requires Seated(front + [r] + back) && Lacks(front + [r] + back, IsControl)
    requires Seated(t) && NameBytes(t) == NameBytes(front + back)
    requires NoSpaces(t) && AllHarmless(t)
    ensures Scrub(front + [r] + back) == t
  {
    hide Scrub, Reread, Remove, NameBytes, IsControl, IsInvisible, IsSpace, Seated;
    Untouched(front + [r] + back, IsControl);
    DeletesTo(front, r, back, t, IsInvisible);
    Untouched(t, IsHtml);
    ScrubVia(front + [r] + back, front + [r] + back, t, t);
  }

  lemma ScrubHtml(front: Name, r: Rune, back: Name, t: Name)
    requires IsHtml(r) && Lacks(front + back, IsHtml)
    requires var s := front + [r] + back; Seated(s) && Lacks(s, IsControl) && Lacks(s, IsInvisible) && NoSpaces(s)
    requires Seated(t) && NameBytes(t) == NameBytes(front + back)
    requires NoSpaces(t) && AllHarmless(t)
    ensures Scrub(front + [r] + back) == t
  {
    hide Scrub, Reread, Remove, NameBytes, IsControl, IsInvisible, IsHtml, IsSpace, Seated;
    var s := front + [r] + back;
    Untouched(s, IsControl);
    Untouched(s, IsInvisible);
    DeletesTo(front, r, back, t, IsHtml);
    ScrubVia(s, s, s, t);
  }

  lemma SameReading(t: Name, s: Name)
    requires Normal(t) && NameBytes(t) == NameBytes(s)
    ensures Reread(s) == t
  {
  }

  // ---------------------------------------------------------------- three payloads

  const C2 := BadByte(0xC2)
  const B80 := BadByte(0x80)
  const U0 := Scalar('\U{0}')
  const U80 := Scalar('\U{80}')

  lemma Encoding80()
    ensures Utf8.EncodeChar('\U{80}') == [0xC2, 0x80] && Utf8.EncodeChar('\U{0}') == [0]
  {
  }

  lemma Joins80(front: Name, back: Name)
    ensures NameBytes(front + [C2, B80] + back) == NameBytes(front + [U80] + back)
  {
    Encoding80();
    SameBytes(front, [C2, B80], '\U{80}', back);
  }

  lemma FirstControl()
    ensures Scrub([C2, C2, U0, B80, B80]) == [C2, U80, B80]
  {
    hide Scrub, NameBytes, Utf8.EncodeChar;
    Encoding80();
    Joins80([C2], [B80]);
    assert [C2, C2] + [B80, B80] == [C2] + [C2, B80] + [B80] && [C2] + [U80] + [B80] == [C2, U80, B80];
    ScrubControl([C2, C2], U0, [B80, B80], [C2, U80, B80]);
    assert [C2, C2] + [U0] + [B80, B80] == [C2, C2, U0, B80, B80];
  }

  lemma SecondControl()
    ensures Scrub([C2, U80, B80]) == [U80] == Scrub([C2, U0, B80])
  {
    hide Scrub, NameBytes, Utf8.EncodeChar;
    Encoding80();
    Joins80([], []);
    assert [C2] + [B80] == [] + [C2, B80] + [] && [] + [U80] + [] == [U80];
    ScrubControl([C2], U80, [B80], [U80]);
    ScrubControl([C2], U0, [B80], [U80]);
    assert [C2] + [U80] + [B80] == [C2, U80, B80] && [C2] + [U0] + [B80] == [C2, U0, B80];
  }

  lemma LoneControl()
    ensures Scrub([U80]) == []
  {
    hide Scrub;
    var none: Name := [];
    assert none + none == none && none + [U80] + none == [U80];
    ScrubControl(none, U80, none, none);
  }

  /** C2 C2 00 80 80 is stored as the control character U+0080, which another pass would delete. */
  lemma ControlIsStored()
    ensures Stored([0xC2, 0xC2, 0x00, 0x80, 0x80]) == Some([U80])
    ensures !Canonical([U80]) && Sanitize([U80]) == []
  {
    hide Scrub, Read, NameBytes, Utf8.EncodeChar;
    Encoding80();
    ReadsAs([0xC2, 0xC2, 0x00, 0x80, 0x80], [C2, C2, U0, B80, B80]);
    FirstControl();
    SecondControl();
    LoneControl();
    assert Repair([U80]) == [U80];
    assert !Clean([U80][0]);
  }

  /** C2 00 80 is not empty after one pass, and empty after two: it is refused. */
  lemma EmptiedBySecondPass()
    ensures Sanitize(Read([0xC2, 0x00, 0x80])) == [U80] && Stored([0xC2, 0x00, 0x80]).None?
  {
    hide Scrub, Read, NameBytes, Utf8.EncodeChar;
    Encoding80();
    ReadsAs([0xC2, 0x00, 0x80], [C2, U0, B80]);
    SecondControl();
    LoneControl();
  }

  const EF := BadByte(0xEF)
  const BB := BadByte(0xBB)
  const BF := BadByte(0xBF)
  const BOM := Scalar('\U{FEFF}')
  const ABC := [Scalar('a'), Scalar('b'), Scalar('c')]
  const LT := Scalar('<')

  lemma EncodingBom()
    ensures Utf8.EncodeChar('\U{FEFF}') == [0xEF, 0xBB, 0xBF] && Utf8.EncodeChar('<') == [0x3C]
    ensures Utf8.EncodeChar('a') == [0x61] && Utf8.EncodeChar('b') == [0x62] && Utf8.EncodeChar('c') == [0x63]
  {
  }

  lemma JoinsBom(front: Name, back: Name)
    ensures NameBytes(front + [EF, BB, BF] + back) == NameBytes(front + [BOM] + back)
  {
    EncodingBom();
    SameBytes(front, [EF, BB, BF], '\U{FEFF}', back);
  }

  lemma BomPayloadRunes()
    ensures var s := [EF, EF, LT, BB, BF, BB, BF] + ABC;
            Seated(s) && Lacks(s, IsControl) && Lacks(s, IsInvisible) && NoSpaces(s)
  {
    hide Utf8.EncodeChar;
    EncodingBom();
  }

  lemma BomLeftoverRunes()
    ensures var t := [EF, BOM, BB, BF] + ABC; Seated(t) && Lacks(t, IsControl) && NoSpaces(t) && AllHarmless(t)
    ensures Lacks([EF, EF] + ([BB, BF, BB, BF] + ABC), IsHtml)
  {
    hide Utf8.EncodeChar;
    EncodingBom();
  }

  lemma FirstBom()
    ensures Scrub([EF, EF, LT, BB, BF, BB, BF] + ABC) == [EF, BOM, BB, BF] + ABC
  {
    hide Scrub, NameBytes, Seated, Lacks, NoSpaces, AllHarmless;
    BomPayloadRunes();
    BomLeftoverRunes();
    var back := [BB, BF, BB, BF] + ABC;
    JoinsBom([EF], [BB, BF] + ABC);
    assert [EF, EF] + back == [EF] + [EF, BB, BF] + ([BB, BF] + ABC);
    assert [EF] + [BOM] + ([BB, BF] + ABC) == [EF, BOM, BB, BF] + ABC;
    assert [EF, EF] + [LT] + back == [EF, EF, LT, BB, BF, BB, BF] + ABC;
    ScrubHtml([EF, EF], LT, back, [EF, BOM, BB, BF] + ABC);
  }

  lemma SecondBom()
    ensures Scrub([EF, BOM, BB, BF] + ABC) == [BOM] + ABC
  {
    hide Scrub, NameBytes, Utf8.EncodeChar;
    EncodingBom();
    JoinsBom([], ABC);
    assert [EF] + ([BB, BF] + ABC) == [] + [EF, BB, BF] + ABC && [] + [BOM] + ABC == [BOM] + ABC;
    assert [EF] + [BOM] + ([BB, BF] + ABC) == [EF, BOM, BB, BF] + ABC;
    ScrubInvisible([EF], BOM, [BB, BF] + ABC, [BOM] + ABC);
  }

  const BOM_PAYLOAD: seq<byte> := [0xEF, 0xEF, 0x3C, 0xBB, 0xBF, 0xBB, 0xBF, 0x61, 0x62, 0x63]

  /** EF EF 3C BB BF BB BF 61 62 63 is stored as U+FEFF followed by "abc". */
  lemma BomIsStored()
    ensures Stored(BOM_PAYLOAD) == Some([BOM] + ABC) && !Canonical([BOM] + ABC)
  {
    hide Scrub, Read, NameBytes, Utf8.EncodeChar;
    EncodingBom();
    ReadsAs(BOM_PAYLOAD, [EF, EF, LT, BB, BF, BB, BF] + ABC);
    FirstBom();
    SecondBom();
    assert Repair([BOM] + ABC) == [BOM] + ABC;
    assert !Clean(([BOM] + ABC)[0]);
  }
}
