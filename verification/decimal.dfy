/** Decimal text of natural numbers: Python's `str(n)` for `n >= 0` and the
    digit-string part of `int(s)`. */
module Decimal {
  import opened Wrappers

  predicate IsDigit(c: char) {
    '0' <= c <= '9'
  }

  predicate AllDigits(s: string) {
    forall i :: 0 <= i < |s| ==> IsDigit(s[i])
  }

  function DigitChar(d: nat): (c: char)
    requires d < 10
    ensures IsDigit(c) && c as int - '0' as int == d
  {
    (d + '0' as int) as char
  }

  function DigitValue(c: char): (d: nat)
    requires IsDigit(c)
    ensures d < 10 && DigitChar(d) == c
  {
    c as int - '0' as int
  }

  /** Python's `str(n)` for a non-negative int: shortest decimal, no sign. */
  function NatToString(n: nat): (s: string)
    decreases n
  {
    if n < 10 then [DigitChar(n)] else NatToString(n / 10) + [DigitChar(n % 10)]
  }

  /** Value of a (possibly zero-padded) digit string, most significant digit first. */
  function DigitsValue(s: string): nat
    requires AllDigits(s)
  {
    if |s| == 0 then 0 else 10 * DigitsValue(s[..|s| - 1]) + DigitValue(s[|s| - 1])
  }

  /** A canonical decimal: non-empty, digits only, no leading zero unless it is "0". */
  predicate Canonical(s: string) {
    |s| > 0 && AllDigits(s) && (|s| == 1 || s[0] != '0')
  }

  /** Parses exactly the strings `NatToString` produces. */
  function ParseNat(s: string): (r: Option<nat>)
    ensures r.Some? <==> Canonical(s)
  {
    if Canonical(s) then Some(DigitsValue(s)) else None
  }

  /** Python's `int(s)` restricted to an optional '-' followed by decimal digits
      (leading zeros allowed, as `int("05") == 5`). */
  function ParseInt(s: string): (r: Option<int>)
    ensures r.Some? <==> (|s| > 0 && AllDigits(s)) || (|s| > 1 && s[0] == '-' && AllDigits(s[1..]))
  {
    if |s| > 0 && AllDigits(s) then Some(DigitsValue(s) as int)
    else if |s| > 1 && s[0] == '-' && AllDigits(s[1..]) then Some(-(DigitsValue(s[1..]) as int))
    else None
  }

  lemma {:induction false} NatToStringCanonical(n: nat)
    ensures Canonical(NatToString(n))
    ensures |NatToString(n)| == 1 <==> n < 10
    decreases n
  {
    if n >= 10 {
      NatToStringCanonical(n / 10);
      var s := NatToString(n / 10);
      assert NatToString(n) == s + [DigitChar(n % 10)];
    }
  }

  /** Round trip: what `str` writes, `ParseNat` reads back. */
  lemma {:induction false} ParseNatToString(n: nat)
    ensures ParseNat(NatToString(n)) == Some(n)
    decreases n
  {
    NatToStringCanonical(n);
    var s := NatToString(n);
    if n >= 10 {
      ParseNatToString(n / 10);
      NatToStringCanonical(n / 10);
      assert s[..|s| - 1] == NatToString(n / 10);
      assert DigitsValue(s[..|s| - 1]) == n / 10;
      assert s[|s| - 1] == DigitChar(n % 10);
      assert DigitValue(s[|s| - 1]) == n % 10;
      assert DigitsValue(s) == 10 * (n / 10) + n % 10;
    }
  }

  /** Round trip the other way: a canonical decimal is what `str` writes for its value. */
  lemma {:induction false} NatToStringParse(s: string)
    requires Canonical(s)
    ensures NatToString(DigitsValue(s)) == s
    decreases |s|
  {
    if |s| > 1 {
      var p := s[..|s| - 1];
      assert Canonical(p) by {
        assert p[0] == s[0];
        assert forall i :: 0 <= i < |p| ==> p[i] == s[i];
      }
      NatToStringParse(p);
      var v := DigitsValue(p);
      NatToStringCanonical(v);
      var n := DigitsValue(s);
      assert n == 10 * v + DigitValue(s[|s| - 1]);
      assert n / 10 == v && n % 10 == DigitValue(s[|s| - 1]);
      assert s == p + [s[|s| - 1]];
    }
  }

  lemma NatToStringInjective(a: nat, b: nat)
    requires NatToString(a) == NatToString(b)
    ensures a == b
  {
    ParseNatToString(a);
    ParseNatToString(b);
  }

  lemma {:induction false} NatToStringShort(n: nat)
    requires n < 1000
    ensures |NatToString(n)| <= 3
  {
    if n >= 10 {
      NatToStringShort(n / 10);
      if n / 10 >= 10 {
        assert |NatToString(n / 10 / 10)| == 1;
      }
    }
  }
}
