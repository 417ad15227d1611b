/**
 * The string operations the page relies on: substring search (JavaScript's
 * `includes` and the first piece of `split`) and the decimal rendering of a
 * number inside a template literal.
 */
module Text {
  import opened Wrappers

  /** `t` occurs in `s` starting at index `i`. */
  predicate OccursAt(s: string, t: string, i: int)
  {
    0 <= i && i + |t| <= |s| && s[i..i + |t|] == t
  }

  /** JavaScript's `s.includes(t)`. */
  predicate Contains(s: string, t: string)
  {
    exists i | 0 <= i <= |s| :: OccursAt(s, t, i)
  }

  /** The first index at or after `from` where `t` occurs in `s`, if any. */
  function FirstOccurrenceFrom(s: string, t: string, from: nat): (r: Option<nat>)
    decreases |s| - from
    ensures r.Some? ==> from <= r.value && OccursAt(s, t, r.value)
    ensures forall j :: from <= j && (r.None? || j < r.value) ==> !OccursAt(s, t, j)
  {
    if |s| < from + |t| then None
    else if s[from..from + |t|] == t then Some(from)
    else FirstOccurrenceFrom(s, t, from + 1)
  }

  /** JavaScript's `s.indexOf(t)`, with `None` for -1. */
  function IndexOf(s: string, t: string): (r: Option<nat>)
    ensures r.Some? <==> Contains(s, t)
    ensures r.Some? ==> OccursAt(s, t, r.value) && forall j :: 0 <= j < r.value ==> !OccursAt(s, t, j)
  {
    FirstOccurrenceFrom(s, t, 0)
  }

  /** An occurrence inside a prefix of `s` is an occurrence in `s`. */
  lemma OccursInPrefix(s: string, t: string, k: nat, j: int)
    requires k <= |s| && OccursAt(s[..k], t, j)
    ensures OccursAt(s, t, j)
  {
    assert s[..k][j..j + |t|] == s[j..j + |t|];
  }

  /** JavaScript's `s.split(sep)[0]` for a non-empty separator: all of `s` before the first `sep`. */
  function SplitHead(s: string, sep: string): (r: string)
    requires sep != []
    ensures r <= s
    ensures forall j :: 0 <= j < |r| ==> !OccursAt(s, sep, j)
    ensures !Contains(r, sep)
    ensures Contains(s, sep) ==> OccursAt(s, sep, |r|)
    ensures !Contains(s, sep) ==> r == s
  {
    match IndexOf(s, sep)
    case Some(k) =>
      var r := s[..k];
      assert forall j :: OccursAt(r, sep, j) ==> OccursAt(s, sep, j) by {
        forall j | OccursAt(r, sep, j) ensures OccursAt(s, sep, j) { OccursInPrefix(s, sep, k, j); }
      }
      r
    case None => s
  }

  /** `b` occurs in `a + b + c` at index `|a|`. */
  lemma InfixOfConcat(a: string, b: string, c: string)
    ensures OccursAt(a + b + c, b, |a|) && Contains(a + b + c, b)
  {
    assert (a + b + c)[|a|..|a| + |b|] == b;
    assert OccursAt(a + b + c, b, |a|);
  }

  predicate IsDigit(c: char)
  {
    '0' <= c <= '9'
  }

  function DigitChar(d: nat): (c: char)
    requires d < 10
    ensures IsDigit(c) && c as int - '0' as int == d
  {
    (d + '0' as int) as char
  }

  /** The decimal text of a non-negative number, as JavaScript prints an integer in `${n}`. */
  function Decimal(n: nat): (s: string)
    decreases n
    ensures |s| >= 1 && (n > 0 ==> s[0] != '0')
    ensures forall i :: 0 <= i < |s| ==> IsDigit(s[i])
  {
    if n < 10 then [DigitChar(n)] else Decimal(n / 10) + [DigitChar(n % 10)]
  }

  function DigitValue(c: char): nat
    requires IsDigit(c)
  {
    c as int - '0' as int
  }

  /** The number a string of decimal digits stands for; the inverse of `Decimal`. */
  function DigitsValue(s: string): nat
    requires forall i :: 0 <= i < |s| ==> IsDigit(s[i])
  {
    if s == [] then 0
    else DigitsValue(s[..|s| - 1]) * 10 + DigitValue(s[|s| - 1])
  }

  /** Reading back the decimal text of `n` gives `n`: the text names the number unambiguously. */
  lemma {:induction false} DecimalRoundTrip(n: nat)
    ensures DigitsValue(Decimal(n)) == n
  {
    if n >= 10 {
      DecimalRoundTrip(n / 10);
      var s := Decimal(n);
      assert s[..|s| - 1] == Decimal(n / 10);
    }
  }
}
