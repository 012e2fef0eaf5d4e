/** Python's `str(int)`: the decimal text of an integer, used whenever
    an adapter formats a status code or an id into a string, and its
    inverse, used to state that no information is lost. */
module Decimal {

  import opened Values

  predicate IsDigit(c: char)
  {
    '0' <= c <= '9'
  }

  predicate AllDigits(s: string)
  {
    forall i :: 0 <= i < |s| ==> IsDigit(s[i])
  }

  function DigitChar(d: nat): (c: char)
    requires d < 10
    ensures IsDigit(c) && c as int - '0' as int == d
  {
    ('0' as int + d) as char
  }

  /** Decimal digits of `n`, most significant first, without leading zeros. */
  function NatToString(n: nat): (s: string)
    ensures |s| >= 1 && AllDigits(s)
    ensures s[0] == '0' ==> n == 0
    decreases n
  {
    if n < 10 then [DigitChar(n)] else NatToString(n / 10) + [DigitChar(n % 10)]
  }

  /** `str(i)` for a Python int: a minus sign for negatives, then digits. */
  function IntToString(i: int): (s: string)
    ensures |s| >= 1
    ensures forall k :: 0 <= k < |s| ==> s[k] == '-' || IsDigit(s[k])
  {
    if i < 0 then "-" + NatToString(-i) else NatToString(i)
  }

  /** The number a non-empty digit string denotes. */
  function ParseDigits(s: string): nat
    requires |s| >= 1 && AllDigits(s)
    decreases |s|
  {
    var last := s[|s| - 1] as int - '0' as int;
    if |s| == 1 then last else ParseDigits(s[..|s| - 1]) * 10 + last
  }

  /** A digit string as `str` writes one: no leading zero unless it is "0". */
  predicate Canonical(s: string)
  {
    |s| >= 1 && AllDigits(s) && (s[0] == '0' ==> |s| == 1)
  }

  /** `int(s)` restricted to the texts `str(i)` produces: an optional
      minus sign, then canonical digits, and no "-0". */
  function ParseInt(s: string): Option<int>
  {
    if |s| >= 2 && s[0] == '-' && Canonical(s[1..]) && s[1] != '0' then Some(0 - ParseDigits(s[1..]) as int)
    else if Canonical(s) then Some(ParseDigits(s))
    else None
  }

  lemma {:induction false} ParseDigitsOfNatToString(n: nat)
    ensures ParseDigits(NatToString(n)) == n
    decreases n
  {
    if n >= 10 {
      var s := NatToString(n);
      assert s[..|s| - 1] == NatToString(n / 10);
      ParseDigitsOfNatToString(n / 10);
    }
  }

  /** `int(str(i)) == i`: the decimal text of a status code or an id
      determines it. */
  lemma IntToStringRoundTrip(i: int)
    ensures ParseInt(IntToString(i)) == Some(i)
  {
    if i < 0 {
      var s := IntToString(i);
      assert s[1..] == NatToString(-i);
      ParseDigitsOfNatToString(-i);
    } else {
      ParseDigitsOfNatToString(i);
    }
  }

  lemma {:induction false} ParseDigitsPositive(s: string)
    requires Canonical(s) && s[0] != '0'
    ensures ParseDigits(s) >= 1
    ensures |s| >= 2 ==> ParseDigits(s) >= 10
    decreases |s|
  {
    if |s| >= 2 {
      var init := s[..|s| - 1];
      assert init[0] == s[0];
      ParseDigitsPositive(init);
    }
  }

  /** Appending a digit and dropping it again. */
  lemma DivMod10(a: nat, d: nat)
    requires d < 10
    ensures (a * 10 + d) / 10 == a && (a * 10 + d) % 10 == d
  {
  }

  lemma {:induction false} NatToStringOfParseDigits(s: string)
    requires Canonical(s)
    ensures NatToString(ParseDigits(s)) == s
    decreases |s|
  {
    if |s| >= 2 {
      var init := s[..|s| - 1];
      var d := s[|s| - 1] as int - '0' as int;
      assert init[0] == s[0];
      var n := ParseDigits(s);
      assert n == ParseDigits(init) * 10 + d;
      ParseDigitsPositive(s);
      DivMod10(ParseDigits(init), d);
      NatToStringOfParseDigits(init);
      assert NatToString(n) == NatToString(n / 10) + [DigitChar(n % 10)];
      assert DigitChar(d) == s[|s| - 1];
      assert s == init + [s[|s| - 1]];
    }
  }

  /** `str(int(s)) == s` for every text ParseInt accepts: together with
      IntToStringRoundTrip, ParseInt and IntToString are inverse. */
  lemma ParseIntRoundTrip(s: string)
    requires ParseInt(s).Some?
    ensures IntToString(ParseInt(s).value) == s
  {
    if |s| >= 2 && s[0] == '-' && Canonical(s[1..]) && s[1] != '0' {
      ParseDigitsPositive(s[1..]);
      NatToStringOfParseDigits(s[1..]);
      assert s == "-" + s[1..];
    } else {
      NatToStringOfParseDigits(s);
    }
  }

  lemma IntToStringInjective(i: int, j: int)
    requires IntToString(i) == IntToString(j)
    ensures i == j
  {
    IntToStringRoundTrip(i);
    IntToStringRoundTrip(j);
  }
}
