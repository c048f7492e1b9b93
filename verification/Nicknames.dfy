/**
 Nickname sanitizing (backend/internal/domain/room.go).

 Every pass of the sanitizer reads the bytes that the one before left behind. Deleting runes can
 join bad bytes to a new rune, so what a later pass sees is not always what an earlier one kept.
 */
module Nicknames {
  import opened Prelude
  import opened GoStrings
  import Utf8

  const MAX_NICKNAME_LEN := 12
  const SPACE := Scalar(' ')
  const REPLACEMENT := Scalar('\U{FFFD}')

  function Runes(s: string): (r: Name)
    ensures |r| == |s| && forall i :: 0 <= i < |s| ==> r[i] == Scalar(s[i])
  {
    seq(|s|, i requires 0 <= i < |s| => Scalar(s[i]))
  }

  predicate InRange(r: Rune, lo: int, hi: int) {
    r.Scalar? && lo <= r.c as int <= hi
  }

  predicate IsControl(r: Rune) {
    InRange(r, 0, 0x1F) || InRange(r, 0x7F, 0x9F)
  }

  predicate IsInvisible(r: Rune) {
    InRange(r, 0x200B, 0x200F) || InRange(r, 0xFEFF, 0xFEFF) ||
    InRange(r, 0x2028, 0x202F) || InRange(r, 0x2060, 0x206F)
  }

  predicate IsHtml(r: Rune) {
    r.Scalar? && r.c in ['<', '>', '"', '\'', '`', '&']
  }

  /** unicode.IsSpace: what strings.TrimSpace strips. */
  predicate IsSpace(r: Rune) {
    InRange(r, 0x09, 0x0D) || InRange(r, 0x20, 0x20) || InRange(r, 0x85, 0x85) ||
    InRange(r, 0xA0, 0xA0) || InRange(r, 0x1680, 0x1680) || InRange(r, 0x2000, 0x200A) ||
    InRange(r, 0x2028, 0x2029) || InRange(r, 0x202F, 0x202F) || InRange(r, 0x205F, 0x205F) ||
    InRange(r, 0x3000, 0x3000)
  }

  /** The regexp class \s. */
  predicate IsRegexpSpace(r: Rune) {
    InRange(r, 0x09, 0x0A) || InRange(r, 0x0C, 0x0D) || InRange(r, 0x20, 0x20)
  }

  function Remove(s: Name, drop: Rune -> bool): (t: Name) {
    if s == [] then []
    else (if drop(s[0]) then [] else [s[0]]) + Remove(s[1..], drop)
  }

  function TrimLeft(s: Name): (t: Name) {
    if s != [] && IsSpace(s[0]) then TrimLeft(s[1..]) else s
  }

  function TrimRight(s: Name): (t: Name) {
    if s != [] && IsSpace(s[|s| - 1]) then TrimRight(s[..|s| - 1]) else s
  }

  function Trim(s: Name): (t: Name) {
    TrimRight(TrimLeft(s))
  }

  /** Every maximal run of \s becomes one blank. */
  function Collapse(s: Name): (t: Name) {
    if s == [] then []
    else if IsRegexpSpace(s[0]) && |s| > 1 && IsRegexpSpace(s[1]) then Collapse(s[1..])
    else [if IsRegexpSpace(s[0]) then SPACE else s[0]] + Collapse(s[1..])
  }

  /** Going through []rune and back turns an invalid byte into U+FFFD. */
  function Repair(s: Name): (t: Name)
    ensures |t| == |s|
  {
    seq(|s|, i requires 0 <= i < |s| => if s[i].BadByte? then REPLACEMENT else s[i])
  }

  function Truncate(s: Name): (t: Name) {
    if |s| > MAX_NICKNAME_LEN then Repair(s[..MAX_NICKNAME_LEN]) else s
  }

  /**
   Everything SanitizeNickname does before its length limit. Only the deletions can join bytes
   (TrimNormal and CollapseNormal below), so only they are followed by another reading.
   */
  function Scrub(raw: Name): (t: Name) {
    Collapse(Trim(Unmark(Trim(Unveil(Decontrol(raw))))))
  }

  function Decontrol(s: Name): (t: Name) {
    Reread(Remove(s, IsControl))
  }

  function Unveil(s: Name): (t: Name) {
    Reread(Remove(s, IsInvisible))
  }

  function Unmark(s: Name): (t: Name) {
    Reread(Remove(s, IsHtml))
  }

  function Sanitize(raw: Name): (t: Name) {
    Truncate(Scrub(raw))
  }

  /** NewNickname with the default validator; None is its error. */
  function NewNickname(raw: Name): (n: Option<Name>) {
    var s := Sanitize(raw);
    var runes := if |s| > MAX_NICKNAME_LEN then s[..MAX_NICKNAME_LEN] else s;
    if |runes| == 0 then None else Some(Repair(runes))
  }

  /** What the set-nickname path stores for the bytes of a message: sanitized, then NewNickname. */
  function Stored(text: seq<byte>): (n: Option<Name>) {
    NewNickname(Sanitize(Read(text)))
  }

  // ---------------------------------------------------------------- what a clean name is

  predicate Clean(r: Rune) {
    !IsControl(r) && !IsInvisible(r) && !IsHtml(r)
  }

  /** No ASCII control character and no HTML character. */
  predicate Harmless(r: Rune) {
    !InRange(r, 0, 0x1F) && !InRange(r, 0x7F, 0x7F) && !IsHtml(r)
  }

  ghost predicate AllClean(s: Name) {
    forall i :: 0 <= i < |s| ==> Clean(s[i])
  }

  ghost predicate AllHarmless(s: Name) {
    forall i :: 0 <= i < |s| ==> Harmless(s[i])
  }

  ghost predicate NoDoubleBlank(s: Name) {
    forall i :: 0 < i < |s| ==> !(s[i - 1] == SPACE && s[i] == SPACE)
  }

  ghost predicate TrimmedLeft(s: Name) {
    s != [] ==> !IsSpace(s[0])
  }

  ghost predicate TrimmedRight(s: Name) {
    s != [] ==> !IsSpace(s[|s| - 1])
  }

  /** Blank-collapsed, trimmed at the front, nothing harmful. */
  ghost predicate Tidy(s: Name) {
    AllHarmless(s) && NoDoubleBlank(s) && TrimmedLeft(s)
  }

  /** The independent description of the sanitizer's fixed points. */
  ghost predicate Canonical(s: Name) {
    AllClean(s) && Tidy(s) && TrimmedRight(s) && |s| <= MAX_NICKNAME_LEN
  }

  // ---------------------------------------------------------------- the passes on runes

  lemma {:induction false} RemoveKeeps(s: Name, drop: Rune -> bool)
    ensures |Remove(s, drop)| <= |s|
    ensures forall r :: r in Remove(s, drop) ==> !drop(r) && r in s
    ensures |Remove(s, drop)| == |s| ==> Remove(s, drop) == s
  {
    if s != [] {
      RemoveKeeps(s[1..], drop);
      assert s == [s[0]] + s[1..];
    }
  }

  lemma {:induction false} RemoveNothing(s: Name, drop: Rune -> bool)
    requires forall i :: 0 <= i < |s| ==> !drop(s[i])
    ensures Remove(s, drop) == s
  {
    if s != [] {
      RemoveNothing(s[1..], drop);
      assert s == [s[0]] + s[1..];
    }
  }

  lemma {:induction false} TrimLeftKeeps(s: Name)
    ensures TrimmedLeft(TrimLeft(s))
    ensures |TrimLeft(s)| <= |s| && TrimLeft(s) == s[|s| - |TrimLeft(s)|..]
  {
    if s != [] && IsSpace(s[0]) {
      TrimLeftKeeps(s[1..]);
    }
  }

  lemma {:induction false} TrimRightKeeps(s: Name)
    ensures TrimmedRight(TrimRight(s))
    ensures |TrimRight(s)| <= |s| && TrimRight(s) == s[..|TrimRight(s)|]
    ensures s != [] && !IsSpace(s[0]) ==> TrimRight(s) != []
  {
    if s != [] && IsSpace(s[|s| - 1]) {
      TrimRightKeeps(s[..|s| - 1]);
    }
  }

  lemma TrimKeeps(s: Name)
    ensures TrimmedLeft(Trim(s)) && TrimmedRight(Trim(s))
    ensures |Trim(s)| <= |s| && forall r :: r in Trim(s) ==> r in s
    ensures |Trim(s)| == |s| ==> Trim(s) == s
  {
    TrimLeftKeeps(s);
    TrimRightKeeps(TrimLeft(s));
  }

  lemma TrimNormal(s: Name)
    requires Normal(s)
    ensures Normal(Trim(s))
  {
    hide Normal;
    TrimLeftKeeps(s);
    SuffixNormal(s, |s| - |TrimLeft(s)|);
    TrimRightKeeps(TrimLeft(s));
    PrefixNormal(TrimLeft(s), |Trim(s)|);
  }

  lemma {:induction false} CollapseKeeps(s: Name)
    requires AllHarmless(s)
    ensures NoDoubleBlank(Collapse(s))
    ensures |Collapse(s)| <= |s| && forall r :: r in Collapse(s) <==> r in s
    ensures s != [] ==> Collapse(s) != [] && Collapse(s)[0] == s[0]
    ensures s != [] ==> Collapse(s)[|Collapse(s)| - 1] == s[|s| - 1]
    ensures |Collapse(s)| == |s| ==> Collapse(s) == s
  {
    if s != [] {
      CollapseKeeps(s[1..]);
      assert IsRegexpSpace(s[0]) ==> s[0] == SPACE;
      assert |s| > 1 && IsRegexpSpace(s[1]) ==> s[1] == SPACE;
      assert s == [s[0]] + s[1..];
    }
  }

  lemma {:induction false} CollapseNothing(s: Name)
    requires AllHarmless(s) && NoDoubleBlank(s)
    ensures Collapse(s) == s
  {
    if s != [] {
      assert IsRegexpSpace(s[0]) ==> s[0] == SPACE;
      assert |s| > 1 && IsRegexpSpace(s[1]) ==> s[1] == SPACE;
      CollapseNothing(s[1..]);
      assert s == [s[0]] + s[1..];
    }
  }

  lemma {:induction false} CollapseHead(s: Name)
    ensures s == [] <==> Collapse(s) == []
    ensures s != [] ==> Collapse(s)[0] == if IsRegexpSpace(s[0]) then SPACE else s[0]
  {
    if s != [] {
      CollapseHead(s[1..]);
    }
  }

  /** Collapsing leaves alone what stands before the first blank. */
  lemma {:induction false} CollapseFront(s: Name, k: nat)
    requires k <= |Collapse(s)| && forall i :: 0 <= i < k ==> Collapse(s)[i].BadByte?
    ensures k <= |s| && s[..k] == Collapse(s)[..k]
    decreases k
  {
    if k > 0 {
      CollapseHead(s);
      assert Collapse(s)[1..] == Collapse(s[1..]);
      CollapseFront(s[1..], k - 1);
      assert s[..k] == [s[0]] + s[1..][..k - 1];
    }
  }

  lemma CollapseStart(x: byte, s: Name, c: char)
    requires StartsWith([x] + NameBytes(Collapse(s)), c)
    ensures StartsWith([x] + NameBytes(s), c)
  {
    hide Utf8.EncodeChar, NameBytes;
    JoinedBytes(x, Collapse(s), c);
    var k := |Utf8.EncodeChar(c)| - 1;
    CollapseFront(s, k);
    BytesOfPrefix(s, k);
  }

  lemma CollapseBad(x: byte, s: Name)
    requires ReadOne([x] + NameBytes(s)) == BadByte(x)
    ensures ReadOne([x] + NameBytes(Collapse(s))) == BadByte(x)
  {
    var r := ReadOne([x] + NameBytes(Collapse(s)));
    if r.Scalar? {
      CollapseStart(x, s, r.c);
    }
  }

  lemma {:induction false} CollapseNormal(s: Name)
    requires Normal(s)
    ensures Normal(Collapse(s))
  {
    hide Normal, ReadOne, NameBytes, Utf8.EncodeChar;
    if s != [] {
      TailNormal(s);
      CollapseNormal(s[1..]);
      var t := Collapse(s[1..]);
      if IsRegexpSpace(s[0]) {
        ReadScalarCons(' ', NameBytes(t));
        ConsNormal(SPACE, t);
      } else if s[0].Scalar? {
        ReadScalarCons(s[0].c, NameBytes(t));
        ConsNormal(s[0], t);
      } else {
        BytesCons(s);
        CollapseBad(s[0].b, s[1..]);
        ConsNormal(s[0], t);
      }
    }
  }

  lemma BytesCons(s: Name)
    requires s != []
    ensures NameBytes(s) == RuneBytes(s[0]) + NameBytes(s[1..])
  {
  }

  // ---------------------------------------------------------------- one deletion

  lemma BadAreHigh(s: Name)
    requires Normal(s)
    ensures forall r :: r in s && r.BadByte? ==> r.b as int >= 0x80
  {
    forall i | 0 <= i < |s| && s[i].BadByte?
      ensures s[i].b as int >= 0x80
    {
      BadIsHigh(s, i);
    }
  }

  /** A deletion and the reading after it: never longer, and new runes only above ASCII. */
  lemma DeleteJoins(s: Name, drop: Rune -> bool)
    requires Normal(s)
    ensures var t := Reread(Remove(s, drop));
            && Normal(t) && |t| <= |s|
            && (forall r :: r in t ==> (r in s && !drop(r)) || (r.Scalar? && r.c as int >= 0x80))
            && (|t| == |s| ==> t == s && forall i :: 0 <= i < |s| ==> !drop(s[i]))
  {
    hide Reread, Normal;
    RemoveKeeps(s, drop);
    BadAreHigh(s);
    var kept := Remove(s, drop);
    RereadJoins(kept);
    RereadIsNormal(kept);
    if |Reread(kept)| == |s| {
      NormalRereads(s);
      forall i | 0 <= i < |s|
        ensures !drop(s[i])
      {
        assert s[i] in kept;
      }
    }
  }

  lemma RereadIsNormal(s: Name)
    ensures Normal(Reread(s))
  {
    ReadIsNormal(NameBytes(s));
  }

  lemma NormalRereads(s: Name)
    requires Normal(s)
    ensures Reread(s) == s
  {
  }

  /** On text a deletion has nothing to join. */
  lemma DeleteFromText(s: Name, drop: Rune -> bool)
    requires AllScalar(s)
    ensures Reread(Remove(s, drop)) == Remove(s, drop) && AllScalar(Remove(s, drop))
  {
    RemoveKeeps(s, drop);
    ScalarsAreNormal(Remove(s, drop));
  }

  lemma DeleteNothing(s: Name, drop: Rune -> bool)
    requires Normal(s) && forall i :: 0 <= i < |s| ==> !drop(s[i])
    ensures Reread(Remove(s, drop)) == s
  {
    RemoveNothing(s, drop);
  }

  // ---------------------------------------------------------------- the whole scrub

  /** The runes that reach the last two passes. */
  function Bare(raw: Name): (t: Name) {
    Unmark(Trim(Unveil(Decontrol(raw))))
  }

  /** Whatever the bytes: nothing harmful is left, and the text did not grow. */
  lemma BareIsHarmless(raw: Name)
    requires Normal(raw)
    ensures Normal(Bare(raw)) && AllHarmless(Bare(raw)) && |Bare(raw)| <= |raw|
    ensures |Bare(raw)| == |raw| ==> Bare(raw) == raw && AllClean(raw)
  {
    hide Normal, Reread, Remove, Trim;
    var a := Decontrol(raw);
    DeleteJoins(raw, IsControl);
    var b := Unveil(a);
    DeleteJoins(a, IsInvisible);
    var c := Trim(b);
    TrimKeeps(b);
    TrimNormal(b);
    DeleteJoins(c, IsHtml);
  }

  /**
   For every payload: what the scrub leaves is harmless, blank-collapsed, trimmed on both sides,
   no longer than the input, and reads the same again.
   */
  lemma ScrubIsTidy(raw: Name)
    requires Normal(raw)
    ensures Tidy(Scrub(raw)) && TrimmedRight(Scrub(raw)) && Normal(Scrub(raw))
    ensures |Scrub(raw)| <= |raw|
    ensures |Scrub(raw)| == |raw| ==> Scrub(raw) == raw && AllClean(raw)
  {
    hide Normal, Bare, Trim, Scrub, Harmless, Clean, Collapse;
    ScrubUnfolds(raw);
    BareIsHarmless(raw);
    TrimKeeps(Bare(raw));
    TrimNormal(Bare(raw));
    var t := Trim(Bare(raw));
    HarmlessPart(t, Bare(raw));
    CollapseKeeps(t);
    CollapseNormal(t);
    HarmlessPart(Scrub(raw), t);
  }

  lemma HarmlessPart(s: Name, t: Name)
    requires AllHarmless(t) && forall r :: r in s ==> r in t
    ensures AllHarmless(s)
  {
    forall i | 0 <= i < |s|
      ensures Harmless(s[i])
    {
      assert s[i] in t;
    }
  }

  lemma ScrubUnfolds(raw: Name)
    ensures Scrub(raw) == Collapse(Trim(Bare(raw)))
  {
  }

  lemma ScalarMembers(s: Name)
    ensures AllScalar(s) <==> forall r :: r in s ==> r.Scalar?
  {
    if forall r :: r in s ==> r.Scalar? {
      assert forall i :: 0 <= i < |s| ==> s[i] in s;
    }
  }

  /** One deletion from text: text again, made of the runes that were not dropped. */
  lemma DeleteText(s: Name, drop: Rune -> bool)
    requires AllScalar(s)
    ensures var t := Reread(Remove(s, drop)); AllScalar(t) && forall r :: r in t ==> r in s && !drop(r)
  {
    hide Reread, Remove;
    DeleteFromText(s, drop);
    RemoveKeeps(s, drop);
  }

  lemma TrimText(s: Name)
    requires AllScalar(s)
    ensures AllScalar(Trim(s)) && forall r :: r in Trim(s) ==> r in s
  {
    TrimKeeps(s);
    ScalarMembers(Trim(s));
  }

  lemma BareOfText(raw: Name)
    requires AllScalar(raw)
    ensures AllScalar(Bare(raw)) && forall r :: r in Bare(raw) ==> Clean(r)
  {
    hide Reread, Remove, Trim, AllScalar, IsControl, IsInvisible, IsHtml;
    DeleteText(raw, IsControl);
    DeleteText(Decontrol(raw), IsInvisible);
    TrimText(Unveil(Decontrol(raw)));
    DeleteText(Trim(Unveil(Decontrol(raw))), IsHtml);
  }

  /** On valid UTF-8 the scrub leaves clean text. */
  lemma ScrubOfText(raw: Name)
    requires AllScalar(raw)
    ensures AllScalar(Scrub(raw)) && AllClean(Scrub(raw))
  {
    hide Bare, Trim, Scrub, Collapse;
    ScrubUnfolds(raw);
    BareOfText(raw);
    TrimText(Bare(raw));
    var t := Trim(Bare(raw));
    assert AllHarmless(t) by {
      forall i | 0 <= i < |t|
        ensures Harmless(t[i])
      {
        assert t[i] in t;
      }
    }
    CollapseKeeps(t);
    ScalarMembers(t);
    ScalarMembers(Collapse(t));
    assert forall i :: 0 <= i < |Collapse(t)| ==> Collapse(t)[i] in t;
  }

  /** Whatever comes in, what SanitizeNickname returns is tidy and at most 12 runes long. */
  lemma SanitizeIsTidy(raw: Name)
    requires Normal(raw)
    ensures Tidy(Sanitize(raw)) && |Sanitize(raw)| <= MAX_NICKNAME_LEN && Normal(Sanitize(raw))
  {
    hide Scrub, Normal;
    ScrubIsTidy(raw);
    if |Scrub(raw)| > MAX_NICKNAME_LEN {
      ScalarsAreNormal(Sanitize(raw));
      RepairKeepsTidy(Scrub(raw)[..MAX_NICKNAME_LEN]);
    }
  }

  lemma RepairKeepsTidy(s: Name)
    requires Tidy(s)
    ensures Tidy(Repair(s)) && AllScalar(Repair(s))
    ensures AllClean(Repair(s)) <==> AllClean(s)
    ensures TrimmedRight(Repair(s)) <==> TrimmedRight(s)
  {
    var n := Repair(s);
    forall i | 0 <= i < |s|
      ensures Harmless(n[i]) && (Clean(n[i]) <==> Clean(s[i]))
      ensures (n[i] == SPACE <==> s[i] == SPACE) && (IsSpace(n[i]) <==> IsSpace(s[i]))
    {
    }
  }

  /** On tidy clean names the whole of Scrub amounts to dropping trailing space. */
  lemma ScrubOfClean(s: Name)
    requires Normal(s) && Tidy(s) && AllClean(s)
    ensures Scrub(s) == TrimRight(s)
  {
    hide Normal, Reread, Remove;
    DeleteNothing(s, IsControl);
    DeleteNothing(s, IsInvisible);
    TrimRightKeeps(s);
    var t := TrimRight(s);
    assert Trim(s) == t && Trim(t) == t;
    PrefixNormal(s, |t|);
    DeleteNothing(t, IsHtml);
    CollapseNothing(t);
  }

  /** The fixed points of SanitizeNickname are exactly the canonical names. */
  lemma FixedPointIff(s: Name)
    requires Normal(s)
    ensures Sanitize(s) == s <==> Canonical(s)
  {
    hide Scrub, Normal;
    ScrubIsTidy(s);
    SanitizeIsTidy(s);
    if Canonical(s) {
      ScrubOfClean(s);
      TrimRightKeeps(s);
    }
  }

  // ---------------------------------------------------------------- one pass, two passes

  lemma CleanOfTruncated(s: Name)
    requires Tidy(s) && TrimmedRight(s)
    ensures Canonical(Truncate(s)) <==>
            AllClean(Truncate(s)) && !(|s| > MAX_NICKNAME_LEN && IsSpace(s[MAX_NICKNAME_LEN - 1]))
  {
    if |s| > MAX_NICKNAME_LEN {
      RepairKeepsTidy(s[..MAX_NICKNAME_LEN]);
    }
  }

  /**
   One pass is a fixed point, for any payload, exactly when its own deletions brought no forbidden
   rune together within the limit, and the limit does not cut right after a space.
   */
  lemma IdempotentIff(raw: Name)
    requires Normal(raw)
    ensures Sanitize(Sanitize(raw)) == Sanitize(raw) <==>
            && AllClean(Truncate(Scrub(raw)))
            && !(|Scrub(raw)| > MAX_NICKNAME_LEN && IsSpace(Scrub(raw)[MAX_NICKNAME_LEN - 1]))
  {
    hide Scrub, Normal;
    ScrubIsTidy(raw);
    SanitizeIsTidy(raw);
    FixedPointIff(Sanitize(raw));
    CleanOfTruncated(Scrub(raw));
  }

  lemma SanitizeText(raw: Name)
    requires AllScalar(raw)
    ensures AllScalar(Sanitize(raw)) && AllClean(Sanitize(raw)) && Tidy(Sanitize(raw))
  {
    hide Scrub, Normal;
    ScrubOfText(raw);
    ScalarsAreNormal(raw);
    SanitizeIsTidy(raw);
    ScrubIsTidy(raw);
    if |Scrub(raw)| > MAX_NICKNAME_LEN {
      RepairKeepsTidy(Scrub(raw)[..MAX_NICKNAME_LEN]);
    }
  }

  /** On valid UTF-8 sanitizing twice reaches a fixed point: a third pass changes nothing. */
  lemma TwiceIsCanonical(raw: Name)
    requires AllScalar(raw)
    ensures Canonical(Sanitize(Sanitize(raw)))
    ensures Sanitize(Sanitize(Sanitize(raw))) == Sanitize(Sanitize(raw))
    ensures Sanitize(raw) != [] ==> Sanitize(Sanitize(raw)) != []
  {
    hide Scrub, Normal;
    var s := Sanitize(raw);
    SanitizeText(raw);
    ScalarsAreNormal(raw);
    SanitizeIsTidy(raw);
    ScrubOfClean(s);
    TrimRightKeeps(s);
    SanitizeIsTidy(s);
    SanitizeText(s);
    FixedPointIff(Sanitize(s));
  }

  /** Eleven letters, a blank and a letter: the blank goes only in the second pass. */
  lemma NotIdempotent()
    ensures exists raw: Name :: AllScalar(raw) && Sanitize(Sanitize(raw)) != Sanitize(raw)
  {
    hide Scrub, Normal;
    var raw: Name := seq(13, i => if i == 11 then SPACE else Scalar('a'));
    assert forall i :: 0 <= i < 13 ==> (raw[i] == SPACE <==> i == 11) && Clean(raw[i]);
    assert Tidy(raw) && TrimmedRight(raw) && AllScalar(raw);
    ScalarsAreNormal(raw);
    ScrubOfClean(raw);
    IdempotentIff(raw);
    assert Sanitize(Sanitize(raw)) != Sanitize(raw);
  }

  // ---------------------------------------------------------------- what is stored

  lemma SecondPass(s: Name)
    requires Normal(s) && |s| <= MAX_NICKNAME_LEN
    ensures NewNickname(s) == if Scrub(s) == [] then None else Some(Repair(Scrub(s)))
  {
    hide Scrub, Normal;
    ScrubIsTidy(s);
  }

  /**
   For every payload: a stored nickname is nonempty valid UTF-8 of at most 12 code points,
   blank-collapsed, trimmed, and free of ASCII control and HTML characters.
   */
  lemma StoredIsSafe(text: seq<byte>)
    requires Stored(text).Some?
    ensures var n := Stored(text).value;
            AllScalar(n) && n != [] && |n| <= 12 && Tidy(n) && TrimmedRight(n)
  {
    hide Sanitize, Normal, Scrub, NewNickname;
    var s := Sanitize(Read(text));
    ReadIsNormal(text);
    SanitizeIsTidy(Read(text));
    SecondPass(s);
    ScrubIsTidy(s);
    RepairKeepsTidy(Scrub(s));
  }

  /**
   The exact condition, for every payload: the stored name is canonical if and only if the
   deletions of the second pass leave no forbidden rune behind.
   */
  lemma StoredIsCanonicalIff(text: seq<byte>)
    requires Stored(text).Some?
    ensures Canonical(Stored(text).value) <==> AllClean(Scrub(Sanitize(Read(text))))
  {
    hide Sanitize, Normal, Scrub, NewNickname;
    var s := Sanitize(Read(text));
    ReadIsNormal(text);
    SanitizeIsTidy(Read(text));
    SecondPass(s);
    ScrubIsTidy(s);
    RepairKeepsTidy(Scrub(s));
  }

  /** Deleting commutes with decoding: what each deletion keeps reads the same afterwards. */
  ghost predicate JoinsNothing(s: Name) {
    && Normal(Remove(s, IsControl))
    && Normal(Remove(Decontrol(s), IsInvisible))
    && Normal(Remove(Trim(Unveil(Decontrol(s))), IsHtml))
  }

  lemma JoinlessIsClean(s: Name)
    requires JoinsNothing(s)
    ensures AllClean(Scrub(s))
  {
    hide Normal, Remove, Trim, Collapse, Reread, Scrub, Clean, Harmless, IsControl, IsInvisible, IsHtml;
    var u, v := Decontrol(s), Unveil(Decontrol(s));
    NormalRereads(Remove(s, IsControl));
    RemoveKeeps(s, IsControl);
    NormalRereads(Remove(u, IsInvisible));
    RemoveKeeps(u, IsInvisible);
    TrimKeeps(v);
    NormalRereads(Remove(Trim(v), IsHtml));
    RemoveKeeps(Trim(v), IsHtml);
    TrimKeeps(Bare(s));
    CleanMembers(Trim(Bare(s)));
    CollapseKeeps(Trim(Bare(s)));
    ScrubUnfolds(s);
    CleanMembers(Scrub(s));
  }

  lemma CleanMembers(s: Name)
    ensures AllClean(s) <==> forall r :: r in s ==> !IsControl(r) && !IsInvisible(r) && !IsHtml(r)
    ensures AllClean(s) ==> AllHarmless(s)
  {
    if forall r :: r in s ==> !IsControl(r) && !IsInvisible(r) && !IsHtml(r) {
      forall i | 0 <= i < |s|
        ensures Clean(s[i])
      {
        assert s[i] in s;
      }
    }
  }

  /** Only joined bytes can smuggle: when the second pass joins nothing, the stored name is canonical. */
  lemma StoredWithoutJoins(text: seq<byte>)
    requires Stored(text).Some? && JoinsNothing(Sanitize(Read(text)))
    ensures Canonical(Stored(text).value)
  {
    hide Stored, Sanitize, JoinsNothing, Scrub, Canonical;
    JoinlessIsClean(Sanitize(Read(text)));
    StoredIsCanonicalIff(text);
  }

  /** Valid UTF-8 meets it: then the stored name is canonical, and only emptied text is refused. */
  lemma StoredFromText(text: seq<byte>)
    requires AllScalar(Read(text))
    ensures Stored(text).Some? <==> Sanitize(Read(text)) != []
    ensures Stored(text).Some? ==> Canonical(Stored(text).value)
  {
    hide Sanitize, Normal, Scrub, NewNickname;
    var s := Sanitize(Read(text));
    ReadIsNormal(text);
    SanitizeIsTidy(Read(text));
    SanitizeText(Read(text));
    SecondPass(s);
    ScrubOfClean(s);
    TrimRightKeeps(s);
    ScrubOfText(s);
    if Stored(text).Some? {
      StoredIsCanonicalIff(text);
    }
  }

  // ---------------------------------------------------------------- bytes on the wire

  lemma {:induction false} ByteLengthBound(s: Name)
    ensures |s| <= |NameBytes(s)| <= 4 * |s|
  {
    hide RuneBytes;
    if s != [] {
      ByteLengthBound(s[1..]);
    }
  }

  /** A name within the limit needs at most 48 bytes, so no uint8 length field can overflow. */
  lemma ShortFitsLengthByte(s: Name)
    requires |s| <= MAX_NICKNAME_LEN
    ensures |NameBytes(s)| <= 48
  {
    ByteLengthBound(s);
  }
}
