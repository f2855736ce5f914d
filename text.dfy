/**
 * Text operations the planner relies on: Python's `sub in s` substring test on
 * `str`, and the decimal rendering `str(n)` that an f-string applies to an
 * integer slot.
 */
module Text {

  /** `sub` sits in `s` starting at index `i`. */
  ghost predicate OccursAt(sub: string, s: string, i: int) {
    0 <= i && i + |sub| <= |s| && s[i..i + |sub|] == sub
  }

  /** `sub` is a contiguous piece of `s` (the meaning of Python's `sub in s`). */
  ghost predicate Occurs(sub: string, s: string) {
    exists i :: OccursAt(sub, s, i)
  }

  /** `sub` matches `s` at offset `i` from the needle's position `j` onwards. */
  predicate MatchesAt(s: string, sub: string, i: nat, j: nat)
    requires i + |sub| <= |s| && j <= |sub|
    decreases |sub| - j
  {
    j == |sub| || (s[i + j] == sub[j] && MatchesAt(s, sub, i, j + 1))
  }

  /** Some offset from `i` on holds a match of `sub`: a left-to-right scan. */
  predicate ContainsFrom(s: string, sub: string, i: nat)
    decreases |s| - i
  {
    if i + |sub| > |s| then false
    else MatchesAt(s, sub, i, 0) || ContainsFrom(s, sub, i + 1)
  }

  /** Python's `sub in s` on `str`. */
  predicate Contains(s: string, sub: string) {
    ContainsFrom(s, sub, 0)
  }

  lemma {:induction false} MatchesAtIff(s: string, sub: string, i: nat, j: nat)
    requires i + |sub| <= |s| && j <= |sub|
    ensures MatchesAt(s, sub, i, j) <==> forall k :: j <= k < |sub| ==> s[i + k] == sub[k]
    decreases |sub| - j
  {
    if j < |sub| {
      MatchesAtIff(s, sub, i, j + 1);
    }
  }

  lemma OccursAtIff(sub: string, s: string, i: nat)
    requires i + |sub| <= |s|
    ensures OccursAt(sub, s, i) <==> forall k :: 0 <= k < |sub| ==> s[i + k] == sub[k]
  {
  }

  lemma {:induction false} ContainsFromIff(s: string, sub: string, i: nat)
    ensures ContainsFrom(s, sub, i) <==> exists k :: i <= k && OccursAt(sub, s, k)
    decreases |s| - i
  {
    if i + |sub| > |s| {
      assert forall k :: i <= k ==> !OccursAt(sub, s, k);
    } else {
      ContainsFromIff(s, sub, i + 1);
      MatchesAtIff(s, sub, i, 0);
      OccursAtIff(sub, s, i);
      if exists k :: i <= k && OccursAt(sub, s, k) {
        var k :| i <= k && OccursAt(sub, s, k);
        if k != i {
          assert i + 1 <= k && OccursAt(sub, s, k);
        }
      }
    }
  }

  /** The scan answers exactly the substring question, in both directions. */
  lemma ContainsIff(s: string, sub: string)
    ensures Contains(s, sub) <==> Occurs(sub, s)
  {
    ContainsFromIff(s, sub, 0);
  }

  /** A piece placed between two others is found where it was placed. */
  lemma OccursBetween(pre: string, sub: string, post: string)
    ensures OccursAt(sub, pre + sub + post, |pre|)
  {
  }

  predicate IsDigit(c: char) {
    '0' <= c <= '9'
  }

  predicate AllDigits(s: string) {
    forall i :: 0 <= i < |s| ==> IsDigit(s[i])
  }

  function DigitChar(d: nat): (c: char)
    requires d < 10
  {
    ('0' as int + d) as char
  }

  function DigitValue(c: char): (d: nat)
    requires IsDigit(c)
  {
    c as int - '0' as int
  }

  /**
   * `str(n)` for a non-negative integer: the shortest decimal numeral, so it has
   * at least one digit, only digits, and no leading zero unless it is "0".
   */
  function Decimal(n: nat): (r: string)
    ensures |r| >= 1 && AllDigits(r)
    ensures r[0] == '0' ==> n == 0
  {
    if n < 10 then [DigitChar(n)] else Decimal(n / 10) + [DigitChar(n % 10)]
  }

  /** The value a string of decimal digits denotes. */
  function DecimalValue(s: string): nat
    requires AllDigits(s)
  {
    if s == [] then 0 else DecimalValue(s[..|s| - 1]) * 10 + DigitValue(s[|s| - 1])
  }

  /** Reading a rendered number back gives the number: the rendering loses nothing. */
  lemma {:induction false} DecimalRoundTrip(n: nat)
    ensures DecimalValue(Decimal(n)) == n
  {
    var r := Decimal(n);
    if n < 10 {
      assert r[..|r| - 1] == [];
    } else {
      assert r[..|r| - 1] == Decimal(n / 10);
      DecimalRoundTrip(n / 10);
    }
  }

  /** Distinct numbers render differently. */
  lemma DecimalInjective(a: nat, b: nat)
    ensures Decimal(a) == Decimal(b) ==> a == b
  {
    DecimalRoundTrip(a);
    DecimalRoundTrip(b);
  }

  /** Index of the first `c` in `s`, or `|s|` when there is none. */
  function IndexOf(s: string, c: char): (k: nat)
    ensures k <= |s|
    ensures k < |s| ==> s[k] == c
    ensures forall i :: 0 <= i < k ==> s[i] != c
  {
    if s == [] then 0
    else if s[0] == c then 0
    else 1 + IndexOf(s[1..], c)
  }

  /** An occurrence survives appending more text. */
  lemma OccursBefore(sub: string, s: string, more: string, i: int)
    requires OccursAt(sub, s, i)
    ensures OccursAt(sub, s + more, i)
  {
  }

  /** The pieces joined end to end, as an f-string joins its literal text and its slots. */
  function Concat(parts: seq<string>): string {
    if parts == [] then [] else Concat(parts[..|parts| - 1]) + parts[|parts| - 1]
  }

  /** Where piece `k` starts in the joined text: after all pieces before it. */
  function Offset(parts: seq<string>, k: nat): nat
    requires k <= |parts|
  {
    |Concat(parts[..k])|
  }

  /** Every piece is found, unchanged, at its offset in the joined text. */
  lemma {:induction false} ConcatPieceAt(parts: seq<string>, k: nat)
    requires k < |parts|
    ensures OccursAt(parts[k], Concat(parts), Offset(parts, k))
    decreases |parts|
  {
    var n := |parts| - 1;
    var init := parts[..n];
    assert Concat(parts) == Concat(init) + parts[n];
    if k == n {
      OccursBetween(Concat(init), parts[n], []);
      assert Concat(init) + parts[n] + [] == Concat(parts);
    } else {
      ConcatPieceAt(init, k);
      assert init[..k] == parts[..k];
      OccursBefore(parts[k], Concat(init), parts[n], Offset(init, k));
    }
  }

  /** Pieces come in order: each starts where the one before it ends. */
  lemma OffsetNext(parts: seq<string>, k: nat)
    requires k < |parts|
    ensures Offset(parts, k + 1) == Offset(parts, k) + |parts[k]|
  {
    assert parts[..k + 1][..k] == parts[..k];
  }
}
