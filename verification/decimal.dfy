/** Decimal rendering and reading of integers, as used for `Date.now()` in
    the state token and for numeric strings given as `expires_in`. */
module Decimal {
  import opened Basics

  predicate IsDigit(c: char)
  {
    '0' <= c <= '9'
  }

  predicate AllDigits(s: string)
  {
    forall i :: 0 <= i < |s| ==> IsDigit(s[i])
  }

  function DigitChar(d: nat): (c: char)
    requires d < 10
    ensures IsDigit(c) && (c - '0') as nat == d
  {
    "0123456789"[d]
  }

  /** The shortest decimal spelling of `n`. */
  function NatToString(n: nat): (s: string)
    ensures |s| >= 1 && AllDigits(s)
    decreases n
  {
    if n < 10 then [DigitChar(n)] else NatToString(n / 10) + [DigitChar(n % 10)]
  }

  function IntToString(i: int): string
  {
    if i < 0 then "-" + NatToString(-i) else NatToString(i)
  }

  function DigitsValue(s: string): nat
    requires AllDigits(s)
  {
    if s == [] then 0 else DigitsValue(s[..|s| - 1]) * 10 + (s[|s| - 1] - '0') as nat
  }

  /** A non-empty run of decimal digits, read as the number it spells. */
  function ParseNat(s: string): (r: Option<nat>)
    ensures r.Some? <==> |s| > 0 && AllDigits(s)
  {
    if |s| > 0 && AllDigits(s) then Some(DigitsValue(s)) else None
  }

  /** A run of decimal digits with an optional sign, `-` or `+`. */
  function ParseInt(s: string): (r: Option<int>)
    ensures r.Some? <==> ParseNat(if |s| > 0 && (s[0] == '-' || s[0] == '+') then s[1..] else s).Some?
    ensures r.Some? && |s| > 0 && s[0] == '-' ==> r.value == 0 - ParseNat(s[1..]).value
    ensures r.Some? && |s| > 0 && s[0] == '+' ==> r.value == ParseNat(s[1..]).value
  {
    if |s| > 0 && s[0] == '-' then
      match ParseNat(s[1..])
      case Some(n) => Some(0 - n as int)
      case None => None
    else if |s| > 0 && s[0] == '+' then
      match ParseNat(s[1..])
      case Some(n) => Some(n as int)
      case None => None
    else
      match ParseNat(s)
      case Some(n) => Some(n as int)
      case None => None
  }

  /** How `IntToString` spells integers: an optional `-`, then digits with
      no superfluous leading zero, and never `-0`. */
  predicate Canonical(s: string)
  {
    var digits := if |s| > 0 && s[0] == '-' then s[1..] else s;
    && |digits| > 0 && AllDigits(digits)
    && (digits[0] != '0' || (|digits| == 1 && digits == s))
  }

  lemma {:induction false} DigitsValueOfNat(n: nat)
    ensures DigitsValue(NatToString(n)) == n
    decreases n
  {
    if n >= 10 {
      var s := NatToString(n / 10);
      var t := s + [DigitChar(n % 10)];
      assert t[..|t| - 1] == s;
      DigitsValueOfNat(n / 10);
    }
  }

  /** Reading back what `IntToString` wrote gives the same integer. */
  lemma {:induction false} ParseIntToString(i: int)
    ensures ParseInt(IntToString(i)) == Some(i)
  {
    var s := IntToString(i);
    if i < 0 {
      var t := NatToString(-i);
      assert s == "-" + t && s[1..] == t;
      DigitsValueOfNat(-i);
      assert ParseNat(t) == Some(-i);
    } else {
      DigitsValueOfNat(i);
      assert IsDigit(s[0]) && s[0] != '-' && s[0] != '+';
      assert ParseNat(s) == Some(i);
    }
  }

  /** Digits that do not start with `0` spell a positive number. */
  lemma {:induction false} LeadingDigitPositive(s: string)
    requires |s| > 0 && AllDigits(s) && s[0] != '0'
    ensures DigitsValue(s) >= 1
    decreases |s|
  {
    if |s| > 1 {
      var p := s[..|s| - 1];
      assert p[0] == s[0];
      LeadingDigitPositive(p);
    }
  }

  /** Digits with no superfluous leading zero are the shortest spelling of
      the number they spell. */
  lemma {:induction false} CanonicalDigits(s: string)
    requires |s| > 0 && AllDigits(s) && (s[0] != '0' || |s| == 1)
    ensures NatToString(DigitsValue(s)) == s
    decreases |s|
  {
    var p := s[..|s| - 1];
    var d := (s[|s| - 1] - '0') as nat;
    if |s| == 1 {
      assert DigitChar(d) == s[0];
    } else {
      assert p[0] == s[0];
      LeadingDigitPositive(p);
      CanonicalDigits(p);
      var n := DigitsValue(s);
      assert n / 10 == DigitsValue(p) && n % 10 == d;
      assert DigitChar(d) == s[|s| - 1];
      assert s == p + [s[|s| - 1]];
    }
  }

  /** The spelling of a positive number does not start with `0`. */
  lemma {:induction false} NatToStringLeading(n: nat)
    requires n >= 1
    ensures NatToString(n)[0] != '0'
    decreases n
  {
    if n >= 10 {
      NatToStringLeading(n / 10);
    }
  }

  /** Every integer is written canonically. */
  lemma IntToStringCanonical(i: int)
    ensures Canonical(IntToString(i))
  {
    if i < 0 {
      NatToStringLeading(-i);
      assert IntToString(i)[1..] == NatToString(-i);
    } else if i > 0 {
      NatToStringLeading(i);
    }
  }

  /** A canonical text reads as the integer whose spelling it is: with
      `ParseIntToString`, the canonical texts and the integers are in
      one-to-one correspondence. */
  lemma ParseIntCanonical(s: string)
    requires Canonical(s)
    ensures ParseInt(s).Some? && IntToString(ParseInt(s).value) == s
  {
    if s[0] == '-' {
      var digits := s[1..];
      LeadingDigitPositive(digits);
      CanonicalDigits(digits);
      var n: int := DigitsValue(digits);
      assert ParseInt(s) == Some(0 - n);
      assert IntToString(0 - n) == "-" + digits;
      assert s == "-" + digits;
    } else {
      assert IsDigit(s[0]) && s[0] != '+';
      CanonicalDigits(s);
      assert ParseInt(s) == Some(DigitsValue(s) as int);
    }
  }
}
