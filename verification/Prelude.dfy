/** Small vocabulary shared by every other module. */
module Prelude {

  datatype Option<+T> = None | Some(value: T)

  newtype byte = b: int | 0 <= b < 256

  /** The phases of a game, shared by rooms and by the wire format. */
  datatype Phase = Waiting | Counting | Playing | Ended

  /** `[0, 1)`: one draw of a float64 random source. */
  type Draw = r: real | 0.0 <= r < 1.0 witness 0.0

  function Abs(x: real): (r: real) {
    if x < 0.0 then -x else x
  }

  function Min(x: real, y: real): (r: real) {
    if x < y then x else y
  }

  function Max(x: real, y: real): (r: real) {
    if x < y then y else x
  }
}

/** Decimal notation of natural numbers, as strconv.Itoa and %d print it. */
module Decimal {
  import opened Prelude

  predicate IsDigit(c: char) {
    '0' <= c <= '9'
  }

  function DigitChar(d: nat): (c: char)
    requires d < 10
    ensures IsDigit(c) && c as int - '0' as int == d
  {
    ('0' as int + d) as char
  }

  function Print(n: nat): (s: string)
    ensures |s| > 0
    ensures forall i :: 0 <= i < |s| ==> IsDigit(s[i])
    decreases n
  {
    if n < 10 then [DigitChar(n)] else Print(n / 10) + [DigitChar(n % 10)]
  }

  /** Value of a run of digits, most significant digit first. */
  function Value(s: string): (n: nat)
    requires forall i :: 0 <= i < |s| ==> IsDigit(s[i])
  {
    if s == [] then 0
    else
      assert IsDigit(s[|s| - 1]);
      10 * Value(s[..|s| - 1]) + (s[|s| - 1] as int - '0' as int)
  }

  lemma {:induction false} ValueOfPrint(n: nat)
    ensures Value(Print(n)) == n
    decreases n
  {
    if n >= 10 {
      ValueOfPrint(n / 10);
      assert Print(n)[..|Print(n)| - 1] == Print(n / 10);
    } else {
      assert Print(n)[..0] == [];
    }
  }

  lemma PrintInjective(m: nat, n: nat)
    requires Print(m) == Print(n)
    ensures m == n
  {
    ValueOfPrint(m);
    ValueOfPrint(n);
  }

  /** A number below 10^k prints with at most k digits. */
  lemma {:induction false} PrintLength(n: nat, k: nat, bound: nat)
    requires k > 0 && bound == Power10(k) && n < bound
    ensures |Print(n)| <= k
    decreases n
  {
    if n >= 10 {
      PrintLength(n / 10, k - 1, Power10(k - 1));
    }
  }

  function Power10(k: nat): (p: nat)
    ensures p > 0
  {
    if k == 0 then 1 else 10 * Power10(k - 1)
  }
}
