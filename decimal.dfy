/** Decimal numerals: the `str(n)` the writers put into `in`, `out`, `length`
    and id attributes, and the `int(s)` they read those attributes back with.
    Only the forms `str` produces are modelled: an optional `-` followed by
    decimal digits. */
module Decimal {
  import opened Wrappers

  predicate IsDigit(c: char) { '0' <= c <= '9' }

  predicate AllDigits(s: string) { forall i :: 0 <= i < |s| ==> IsDigit(s[i]) }

  function DigitChar(d: nat): (c: char)
    requires d < 10
    ensures IsDigit(c) && c as int - '0' as int == d
  {
    ('0' as int + d) as char
  }

  /** `int(s)` for a non-empty string of digits; None where Python raises. */
  function ParseNat(s: string): Option<nat>
    decreases |s|
  {
    if |s| == 0 || !IsDigit(s[|s| - 1]) then None
    else
      var d := s[|s| - 1] as int - '0' as int;
      if |s| == 1 then Some(d)
      else match ParseNat(s[..|s| - 1])
        case None => None
        case Some(p) => Some(p * 10 + d)
  }

  /** `str(n)` for a natural number: its decimal digits, most significant first. */
  function NatToString(n: nat): (s: string)
    ensures |s| > 0
    decreases n
  {
    if n < 10 then [DigitChar(n)] else NatToString(n / 10) + [DigitChar(n % 10)]
  }

  /** `int(str(n)) == n`. */
  lemma {:induction false} NatToStringParses(n: nat)
    ensures ParseNat(NatToString(n)) == Some(n)
    decreases n
  {
    if n >= 10 {
      var front := NatToString(n / 10);
      NatToStringParses(n / 10);
      var s := NatToString(n);
      assert s[..|s| - 1] == front;
    }
  }

  /** Only non-empty digit strings parse; so every `str(n)` is one. */
  lemma {:induction false} ParsedIsDigits(s: string)
    requires ParseNat(s).Some?
    ensures |s| > 0 && AllDigits(s)
    decreases |s|
  {
    if |s| > 1 {
      var front := s[..|s| - 1];
      ParsedIsDigits(front);
      assert forall i :: 0 <= i < |s| - 1 ==> s[i] == front[i];
    }
  }

  /** `int(s)`: an optional minus sign followed by digits. */
  function ParseInt(s: string): Option<int> {
    if |s| > 0 && s[0] == '-' then
      match ParseNat(s[1..])
      case None => None
      case Some(n) => Some(-(n as int))
    else
      match ParseNat(s)
      case None => None
      case Some(n) => Some(n)
  }

  /** `str(i)` for an integer. */
  function IntToString(i: int): (s: string)
    ensures |s| > 0
  {
    if i < 0 then "-" + NatToString(-i) else NatToString(i)
  }

  /** `int(str(i)) == i`. */
  lemma IntToStringParses(i: int)
    ensures ParseInt(IntToString(i)) == Some(i)
  {
    var s := IntToString(i);
    if i < 0 {
      NatToStringParses(-i);
      assert s[1..] == NatToString(-i);
    } else {
      NatToStringParses(i);
      ParsedIsDigits(s);
      assert IsDigit(s[0]);
    }
  }

  /** Distinct numbers render distinctly, so `prefix{n}` ids built from
      distinct counters are distinct. */
  lemma PrefixedNumeralsDistinct(prefix: string, i: nat, j: nat)
    requires i != j
    ensures prefix + NatToString(i) != prefix + NatToString(j)
  {
    NatToStringParses(i);
    NatToStringParses(j);
    var a, b := prefix + NatToString(i), prefix + NatToString(j);
    assert a[|prefix|..] == NatToString(i);
    assert b[|prefix|..] == NatToString(j);
  }

  /** A `prefix{n}` id is strictly longer than its prefix, so never equal to it. */
  lemma PrefixedNumeralNotPrefix(prefix: string, i: nat)
    ensures prefix + NatToString(i) != prefix
    ensures |prefix + NatToString(i)| > |prefix|
  {
  }
}
