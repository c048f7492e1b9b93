/**
 Random nicknames (backend/internal/nicknames/generator.go): ten random word pairs, then
 "#2".."#97" suffixes of an eleventh, then numbered "Player" names.
 */
module NameGenerator {
  import opened Prelude
  import opened GoStrings
  import opened Nicknames
  import opened NamePools
  import Decimal

  const COMBO_ATTEMPTS := 10
  const MAX_SUFFIX_ATTEMPTS := 98

  /** The three indexes pickRandomCombo draws. */
  datatype Pick = Pick(adjective: nat, category: nat, noun: nat)

  /** The i-th word pair and the i-th number the random source hands out. */
  datatype NameDraws = NameDraws(pick: nat -> Pick, number: nat -> nat)

  lemma PoolsNonempty()
    ensures |ADJECTIVES| > 0 && |CATEGORIES| == 4
    ensures forall i :: 0 <= i < |CATEGORIES| ==> |CATEGORIES[i]| > 0
  {
    assert CATEGORIES == [ANIMALS, JOBS, NATURE, SCIFI];
    assert |ANIMALS_1| > 0 && |JOBS_1| > 0 && |NATURE_1| > 0 && |SCIFI_1| > 0 && |ADJECTIVES_1| > 0;
  }

  function Combo(p: Pick): (n: Name) {
    PoolsNonempty();
    var nouns := CATEGORIES[p.category % |CATEGORIES|];
    Runes(ADJECTIVES[p.adjective % |ADJECTIVES|]) + Runes(nouns[p.noun % |nouns|])
  }

  function Suffixed(base: Name, i: nat): (n: Name) {
    base + Runes("#") + Runes(Decimal.Print(i))
  }

  function Numbered(k: nat): (n: Name) {
    Runes("Player") + Runes(Decimal.Print(k % 10000))
  }

  /** The names each stage tries, in order. */
  function Combos(d: NameDraws): (c: seq<Name>)
    ensures |c| == COMBO_ATTEMPTS && forall i :: 0 <= i < |c| ==> c[i] == Combo(d.pick(i))
  {
    seq(COMBO_ATTEMPTS, i requires 0 <= i => Combo(d.pick(i)))
  }

  function Base(d: NameDraws): (n: Name) {
    Combo(d.pick(COMBO_ATTEMPTS))
  }

  function SuffixedNames(base: Name): (c: seq<Name>)
    ensures |c| == MAX_SUFFIX_ATTEMPTS - 2 && forall i :: 0 <= i < |c| ==> c[i] == Suffixed(base, i + 2)
  {
    seq(MAX_SUFFIX_ATTEMPTS - 2, i requires 0 <= i => Suffixed(base, i + 2))
  }

  function NumberedNames(d: NameDraws): (c: seq<Name>)
    ensures |c| == MAX_SUFFIX_ATTEMPTS && forall i :: 0 <= i < |c| ==> c[i] == Numbered(d.number(i))
  {
    seq(MAX_SUFFIX_ATTEMPTS, i requires 0 <= i => Numbered(d.number(i)))
  }

  /** The first candidate that is short enough and not taken. */
  function FirstFree(used: set<Name>, candidates: seq<Name>): (r: Option<Name>) {
    if candidates == [] then None
    else if |candidates[0]| <= MAX_NICKNAME_LEN && candidates[0] !in used then Some(candidates[0])
    else FirstFree(used, candidates[1..])
  }

  function Generate(used: set<Name>, d: NameDraws): (n: Name) {
    var combo := FirstFree(used, Combos(d));
    if combo.Some? then combo.value else
    var suffixed := FirstFree(used, SuffixedNames(Base(d)));
    if suffixed.Some? then suffixed.value else
    var numbered := FirstFree(used, NumberedNames(d));
    if numbered.Some? then numbered.value else Numbered(d.number(MAX_SUFFIX_ATTEMPTS))
  }

  /** One search loop: the first candidate that is short enough and not taken. */
  method Search(used: set<Name>, candidates: seq<Name>) returns (r: Option<Name>)
    ensures r == FirstFree(used, candidates)
  {
    var i := 0;
    while i < |candidates|
      invariant 0 <= i <= |candidates|
      invariant FirstFree(used, candidates) == FirstFree(used, candidates[i..])
    {
      if |candidates[i]| <= MAX_NICKNAME_LEN && candidates[i] !in used {
        return Some(candidates[i]);
      }
      i := i + 1;
    }
    return None;
  }

  method GenerateRandom(used: set<Name>, d: NameDraws) returns (n: Name)
    ensures n == Generate(used, d)
  {
    var found := Search(used, Combos(d));
    if found.None? {
      found := Search(used, SuffixedNames(Base(d)));
    }
    if found.None? {
      found := Search(used, NumberedNames(d));
    }
    n := if found.Some? then found.value else Numbered(d.number(MAX_SUFFIX_ATTEMPTS));
  }

  // ---------------------------------------------------------------- generated names are clean

  predicate Plain(r: Rune) {
    r.Scalar? && (IsHan(r.c) || r.c == '#' || Decimal.IsDigit(r.c) || 'A' <= r.c <= 'Z' || 'a' <= r.c <= 'z')
  }

  lemma PlainIsCanonical(s: Name)
    requires |s| <= MAX_NICKNAME_LEN
    requires forall i :: 0 <= i < |s| ==> Plain(s[i])
    ensures Canonical(s) && AllScalar(s)
  {
    forall i | 0 <= i < |s|
      ensures Clean(s[i]) && !IsSpace(s[i]) && s[i] != SPACE
    {
      assert Plain(s[i]);
    }
  }

  lemma ComboShape(p: Pick)
    ensures 2 <= |Combo(p)| <= 8
    ensures forall i :: 0 <= i < |Combo(p)| ==> Combo(p)[i].Scalar? && IsHan(Combo(p)[i].c)
  {
    PoolsNonempty();
    var nouns := CATEGORIES[p.category % |CATEGORIES|];
    var adjective: string := ADJECTIVES[p.adjective % |ADJECTIVES|];
    var noun: string := nouns[p.noun % |nouns|];
    assert IsWord(adjective) && IsWord(noun);
  }

  lemma NumberedShape(k: nat)
    ensures Good(Numbered(k)) && |Numbered(k)| <= 10 && Numbered(k)[0] == Scalar('P')
  {
    assert Decimal.Power10(4) == 10000 by {
      assert Decimal.Power10(2) == 100;
    }
    Decimal.PrintLength(k % 10000, 4, 10000);
  }

  lemma SuffixedShape(p: Pick, i: nat)
    requires 2 <= i < MAX_SUFFIX_ATTEMPTS
    ensures Good(Suffixed(Combo(p), i)) && |Suffixed(Combo(p), i)| <= 11
    ensures Suffixed(Combo(p), i)[|Combo(p)|] == Scalar('#')
  {
    ComboShape(p);
    assert Decimal.Power10(2) == 100;
    Decimal.PrintLength(i, 2, 100);
  }

  lemma {:induction false} FirstFreeFinds(used: set<Name>, c: seq<Name>)
    ensures match FirstFree(used, c)
            case Some(n) => n !in used && n in c
            case None => forall i :: 0 <= i < |c| && |c[i]| <= MAX_NICKNAME_LEN ==> c[i] in used
  {
    if c != [] {
      FirstFreeFinds(used, c[1..]);
    }
  }

  predicate Good(n: Name) {
    n != [] && |n| <= MAX_NICKNAME_LEN && forall i :: 0 <= i < |n| ==> Plain(n[i])
  }

  lemma CandidatesAreGood(d: NameDraws)
    ensures forall n :: n in Combos(d) ==> Good(n)
    ensures forall n :: n in SuffixedNames(Base(d)) ==> Good(n)
    ensures forall n :: n in NumberedNames(d) ==> Good(n)
  {
    forall i: nat | i < COMBO_ATTEMPTS
      ensures Good(Combos(d)[i])
    {
      ComboShape(d.pick(i));
    }
    forall i: nat | i < MAX_SUFFIX_ATTEMPTS - 2
      ensures Good(SuffixedNames(Base(d))[i])
    {
      SuffixedShape(d.pick(COMBO_ATTEMPTS), i + 2);
    }
    forall i: nat | i < MAX_SUFFIX_ATTEMPTS
      ensures Good(NumberedNames(d)[i])
    {
      NumberedShape(d.number(i));
    }
  }

  /** Every generated name is canonical, so the sanitizing that follows changes nothing. */
  lemma GeneratedIsCanonical(used: set<Name>, d: NameDraws)
    ensures Canonical(Generate(used, d)) && AllScalar(Generate(used, d)) && Generate(used, d) != []
    ensures Sanitize(Generate(used, d)) == Generate(used, d)
  {
    CandidatesAreGood(d);
    FirstFreeFinds(used, Combos(d));
    FirstFreeFinds(used, SuffixedNames(Base(d)));
    FirstFreeFinds(used, NumberedNames(d));
    NumberedShape(d.number(MAX_SUFFIX_ATTEMPTS));
    PlainIsCanonical(Generate(used, d));
    ScalarsAreNormal(Generate(used, d));
    FixedPointIff(Generate(used, d));
  }

  // ---------------------------------------------------------------- pigeonhole

  ghost function Suffixes(base: Name, k: nat): (s: set<Name>)
    ensures forall n :: n in s ==> exists i :: 2 <= i < k && n == Suffixed(base, i)
    ensures forall i :: 2 <= i < k ==> Suffixed(base, i) in s
  {
    if k <= 2 then {} else Suffixes(base, k - 1) + {Suffixed(base, k - 1)}
  }

  lemma SuffixedInjective(base: Name, i: nat, j: nat)
    requires Suffixed(base, i) == Suffixed(base, j)
    ensures i == j
  {
    var p, q := Decimal.Print(i), Decimal.Print(j);
    var head := base + Runes("#");
    assert Suffixed(base, i)[|head|..] == Runes(p);
    assert Suffixed(base, j)[|head|..] == Runes(q);
    assert forall m :: 0 <= m < |p| ==> Runes(p)[m].c == Runes(q)[m].c;
    assert p == q;
    Decimal.PrintInjective(i, j);
  }

  lemma {:induction false} SuffixesCount(base: Name, k: nat)
    requires k >= 2
    ensures |Suffixes(base, k)| == k - 2
  {
    if k > 2 {
      SuffixesCount(base, k - 1);
      if Suffixed(base, k - 1) in Suffixes(base, k - 1) {
        var i :| 2 <= i < k - 1 && Suffixed(base, k - 1) == Suffixed(base, i);
        SuffixedInjective(base, k - 1, i);
      }
    }
  }

  lemma SubsetSize<T>(a: set<T>, b: set<T>)
    requires a <= b
    ensures |a| <= |b|
    ensures |a| == |b| ==> a == b
  {
    var rest := b - a;
    assert b == a + rest;
    if |a| == |b| {
      assert |rest| == 0;
    }
  }

  /** A word pair and the 96 suffixed names of a base: 97 different names, none of them "Player". */
  lemma FirstTwoStages(first: Pick, base: Pick)
    ensures |Suffixes(Combo(base), MAX_SUFFIX_ATTEMPTS) + {Combo(first)}| == 97
    ensures forall k: nat :: Numbered(k) !in Suffixes(Combo(base), MAX_SUFFIX_ATTEMPTS) + {Combo(first)}
  {
    hide Combo, Numbered, Good, Suffixes;
    var all := Suffixes(Combo(base), MAX_SUFFIX_ATTEMPTS);
    SuffixesCount(Combo(base), MAX_SUFFIX_ATTEMPTS);
    ComboShape(first);
    ComboShape(base);
    if Combo(first) in all {
      var i :| 2 <= i < MAX_SUFFIX_ATTEMPTS && Combo(first) == Suffixed(Combo(base), i);
      SuffixedShape(base, i);
    }
    forall k: nat
      ensures Numbered(k) !in all + {Combo(first)}
    {
      NumberedShape(k);
    }
  }

  /** When the first two stages find nothing, those 97 names are all taken. */
  lemma StagesExhausted(used: set<Name>, d: NameDraws)
    requires FirstFree(used, Combos(d)).None? && FirstFree(used, SuffixedNames(Base(d))).None?
    ensures Suffixes(Base(d), MAX_SUFFIX_ATTEMPTS) + {Combo(d.pick(0))} <= used
  {
    var c, t := Combos(d), SuffixedNames(Base(d));
    assert c[0] in used by {
      ComboShape(d.pick(0));
      FirstFreeFinds(used, c);
    }
    forall i | 2 <= i < MAX_SUFFIX_ATTEMPTS
      ensures Suffixed(Base(d), i) in used
    {
      SuffixedShape(d.pick(COMBO_ATTEMPTS), i);
      FirstFreeFinds(used, t);
      assert t[i - 2] in used;
    }
  }

  /** With at most 97 names taken the generator finds a free one whatever the draws. */
  lemma FreshName(used: set<Name>, d: NameDraws)
    requires |used| <= 97
    ensures Generate(used, d) !in used
  {
    if FirstFree(used, Combos(d)).None? && FirstFree(used, SuffixedNames(Base(d))).None? {
      StagesExhausted(used, d);
      FirstTwoStages(d.pick(0), d.pick(COMBO_ATTEMPTS));
      SubsetSize(Suffixes(Base(d), MAX_SUFFIX_ATTEMPTS) + {Combo(d.pick(0))}, used);
      NumberedShape(d.number(0));
      assert NumberedNames(d)[0] !in used;
    }
    FirstFreeFinds(used, Combos(d));
    FirstFreeFinds(used, SuffixedNames(Base(d)));
    FirstFreeFinds(used, NumberedNames(d));
  }

  ghost predicate AlwaysFresh(n: nat) {
    forall used: set<Name>, d: NameDraws :: |used| <= n ==> Generate(used, d) !in used
  }

  /** 98 taken names and a source that always draws the same value defeat all three stages. */
  lemma NinetyEightCanCollide(p: Pick, k: nat) returns (used: set<Name>, d: NameDraws)
    ensures |used| == 98 && Generate(used, d) in used
  {
    hide FirstFree, Combo, Suffixed, Numbered, Suffixes;
    d := NameDraws(i => p, i => k);
    used := Suffixes(Combo(p), MAX_SUFFIX_ATTEMPTS) + {Combo(p)} + {Numbered(k)};
    FirstTwoStages(p, p);
    AllTaken(used, Combos(d));
    AllTaken(used, SuffixedNames(Base(d)));
    AllTaken(used, NumberedNames(d));
  }

  lemma AllTaken(used: set<Name>, c: seq<Name>)
    requires forall i :: 0 <= i < |c| ==> c[i] in used
    ensures FirstFree(used, c).None?
  {
    FirstFreeFinds(used, c);
  }

  /** The generator's guarantee holds up to 97 taken names and not beyond. */
  lemma AlwaysFreshIff(n: nat)
    ensures AlwaysFresh(n) <==> n <= 97
  {
    if n <= 97 {
      forall used: set<Name>, d: NameDraws | |used| <= n
        ensures Generate(used, d) !in used
      {
        FreshName(used, d);
      }
    } else {
      var used, d := NinetyEightCanCollide(Pick(0, 0, 0), 0);
      assert |used| <= n && Generate(used, d) in used;
    }
  }

  // ---------------------------------------------------------------- preference

  /** The first drawn pair is taken if it is free; a suffixed pair only when the drawn pairs are not. */
  lemma PairsFirst(used: set<Name>, d: NameDraws)
    ensures Combo(d.pick(0)) !in used ==> Generate(used, d) == Combo(d.pick(0))
    ensures (exists i: nat :: i < COMBO_ATTEMPTS && Combo(d.pick(i)) !in used) ==>
              exists i: nat :: i < COMBO_ATTEMPTS && Generate(used, d) == Combo(d.pick(i))
  {
    hide Combo;
    var c := Combos(d);
    assert c[0] == Combo(d.pick(0));
    ComboShape(d.pick(0));
    FirstFreeFinds(used, c);
    if i: nat :| i < COMBO_ATTEMPTS && Combo(d.pick(i)) !in used {
      ComboShape(d.pick(i));
      assert c[i] !in used;
      var j :| 0 <= j < |c| && c[j] == Generate(used, d);
      assert Generate(used, d) == Combo(d.pick(j));
    }
  }
}
