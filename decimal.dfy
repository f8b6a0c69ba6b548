/** Decimal text of an integer, as Rust's `Display` / `to_string` writes
    it for the integer element types: an optional '-' and the digits of
    the magnitude, with no leading zeros. The printers of the matrix use
    it for every element. */
module Decimal {
  import opened Text

  predicate IsDigit(c: char) { '0' <= c <= '9' }

  function DigitChar(d: nat): (c: char)
    requires d < 10
    ensures IsDigit(c)
  {
    ('0' as int + d) as char
  }

  function DigitValue(c: char): (d: nat)
    requires IsDigit(c)
    ensures d < 10 && DigitChar(d) == c
  {
    (c as int - '0' as int) as nat
  }

  predicate AllDigits(s: string)
  {
    forall i | 0 <= i < |s| :: IsDigit(s[i])
  }

  /** `n.to_string()`: a '-' for a negative number, then the digits of the
      magnitude, most significant first. Never empty. */
  function IntToString(n: int): (s: string)
    ensures |s| >= 1
    decreases if n < 0 then 1 - n else n
  {
    if n < 0 then "-" + IntToString(-n)
    else if n < 10 then [DigitChar(n)]
    else IntToString(n / 10) + [DigitChar(n % 10)]
  }

  /** The text of a number that is not negative is all digits, and has no
      leading zero unless it is "0". */
  lemma {:induction false} NaturalShape(n: nat)
    ensures AllDigits(IntToString(n))
    ensures n > 0 ==> IntToString(n)[0] != '0'
    decreases n
  {
    if n >= 10 {
      NaturalShape(n / 10);
      var s := IntToString(n);
      assert s[..|s| - 1] == IntToString(n / 10);
    }
  }

  /** The shape of `n.to_string()`: the first character is '-' exactly for
      negative numbers and every other character is a digit, so the text
      never starts with a space. */
  lemma IntToStringShape(n: int)
    ensures (IntToString(n)[0] == '-') <==> n < 0
    ensures n < 0 ==> IntToString(n)[1..] == IntToString(-n) && AllDigits(IntToString(n)[1..])
    ensures n >= 0 ==> AllDigits(IntToString(n))
    ensures IntToString(n)[0] != ' '
  {
    if n < 0 {
      NaturalShape(-n);
      assert IntToString(n)[1..] == IntToString(-n);
    } else {
      NaturalShape(n);
    }
  }

  /** The text is a '-' and digits: it holds no line break. */
  lemma TextSingleLine(x: int)
    ensures Count(IntToString(x), '\n') == 0
  {
    var s := IntToString(x);
    IntToStringShape(x);
    forall i | 0 <= i < |s|
      ensures s[i] != '\n'
    {
      if i > 0 && x < 0 {
        assert s[i] == s[1..][i - 1];
      }
    }
    CountAbsent(s, '\n');
  }

  /** The call `n.to_string()` as the printers make it: the digits of the
      magnitude are produced least significant first, each put in front
      of those already written, and a '-' goes in front last. */
  method ToString(n: int) returns (s: string)
    ensures s == IntToString(n)
  {
    var k: nat := if n < 0 then -n else n;
    s := [];
    while k >= 10
      invariant IntToString(k) + s == IntToString(if n < 0 then -n else n)
      decreases k
    {
      assert IntToString(k) == IntToString(k / 10) + [DigitChar(k % 10)];
      s := [DigitChar(k % 10)] + s;
      k := k / 10;
    }
    s := [DigitChar(k)] + s;
    if n < 0 {
      s := "-" + s;
    }
  }

  /** Reading digits back, most significant first. */
  function ParseNat(s: string): nat
    requires AllDigits(s)
  {
    if |s| == 0 then 0 else ParseNat(s[..|s| - 1]) * 10 + DigitValue(s[|s| - 1])
  }

  function ParseInt(s: string): int
    requires |s| >= 1
    requires s[0] == '-' ==> AllDigits(s[1..])
    requires s[0] != '-' ==> AllDigits(s)
  {
    if s[0] == '-' then -(ParseNat(s[1..]) as int) else ParseNat(s)
  }

  lemma {:induction false} NaturalRoundTrip(n: nat)
    ensures AllDigits(IntToString(n)) && ParseNat(IntToString(n)) == n
    decreases n
  {
    NaturalShape(n);
    var s := IntToString(n);
    if n >= 10 {
      NaturalRoundTrip(n / 10);
      assert s[..|s| - 1] == IntToString(n / 10);
    }
  }

  /** The text determines the number: parsing it gives `n` back, so two
      different numbers never print alike. */
  lemma IntToStringRoundTrip(n: int)
    ensures IntToString(n)[0] == '-' ==> AllDigits(IntToString(n)[1..])
    ensures IntToString(n)[0] != '-' ==> AllDigits(IntToString(n))
    ensures ParseInt(IntToString(n)) == n
  {
    IntToStringShape(n);
    if n < 0 {
      NaturalRoundTrip(-n);
    } else {
      NaturalRoundTrip(n);
    }
  }

  lemma IntToStringInjective(a: int, b: int)
    ensures IntToString(a) == IntToString(b) <==> a == b
  {
    IntToStringRoundTrip(a);
    IntToStringRoundTrip(b);
  }
}
