/**
 * Decimal numerals as Python's str() prints a non-negative int and as int()
 * reads one back, and the 9-digit retrieval tokens that generate_unique_id
 * (bot.py:107-111) makes by printing a number drawn from
 * [100000000, 999999999].
 */
module Numerals {
  import opened Wrappers

  predicate IsDigit(c: char) { '0' <= c <= '9' }

  predicate AllDigits(s: string) { forall i :: 0 <= i < |s| ==> IsDigit(s[i]) }

  function DigitValue(c: char): nat
    requires IsDigit(c)
  {
    (c as int - '0' as int) as nat
  }

  function DigitChar(d: nat): (c: char)
    requires d < 10
    ensures IsDigit(c) && DigitValue(c) == d
  {
    ('0' as int + d) as char
  }

  function Pow10(k: nat): (p: nat)
    ensures p >= 1
  {
    if k == 0 then 1 else 10 * Pow10(k - 1)
  }

  /** str(n) for a non-negative int n: its decimal digits, with no leading zero. */
  function DecimalString(n: nat): (s: string)
    ensures |s| >= 1 && AllDigits(s)
    ensures s[0] == '0' <==> n == 0
    decreases n
  {
    if n < 10 then [DigitChar(n)] else DecimalString(n / 10) + [DigitChar(n % 10)]
  }

  /** The value of a string of decimal digits, most significant first. */
  function DigitsValue(s: string): nat
    requires AllDigits(s)
    decreases |s|
  {
    if s == [] then 0 else DigitsValue(s[..|s| - 1]) * 10 + DigitValue(s[|s| - 1])
  }

  /** Reading back what str() printed gives the number again. */
  lemma {:induction false} DigitsValueOfDecimal(n: nat)
    ensures DigitsValue(DecimalString(n)) == n
    decreases n
  {
    if n >= 10 {
      var p := DecimalString(n / 10);
      var s := DecimalString(n);
      assert s == p + [DigitChar(n % 10)];
      assert s[..|s| - 1] == p;
      DigitsValueOfDecimal(n / 10);
    }
  }

  /** A digit string of length k with a non-zero first digit lies in [10^(k-1), 10^k). */
  lemma {:induction false} DigitsValueBounds(s: string)
    requires |s| >= 1 && AllDigits(s)
    ensures DigitValue(s[0]) * Pow10(|s| - 1) <= DigitsValue(s) < Pow10(|s|)
    decreases |s|
  {
    if |s| > 1 {
      var p := s[..|s| - 1];
      assert p[0] == s[0];
      DigitsValueBounds(p);
      var v := DigitsValue(p);
      var d0, q := DigitValue(s[0]), Pow10(|p| - 1);
      assert DigitsValue(s) == v * 10 + DigitValue(s[|s| - 1]);
      assert Pow10(|s| - 1) == 10 * q;
      ScaleByTen(d0, q, v);
    }
  }

  lemma ScaleByTen(d: nat, q: nat, v: nat)
    requires d * q <= v
    ensures d * (10 * q) <= 10 * v
  {
    assert d * (10 * q) == 10 * (d * q);
  }

  /** Printing the value of a digit string without a leading zero gives the string back. */
  lemma {:induction false} DecimalOfDigits(s: string)
    requires |s| >= 1 && AllDigits(s) && (s[0] != '0' || |s| == 1)
    ensures DecimalString(DigitsValue(s)) == s
    decreases |s|
  {
    if |s| == 1 {
      assert DigitsValue(s) == DigitValue(s[0]);
      assert DigitChar(DigitValue(s[0])) == s[0];
    } else {
      var p := s[..|s| - 1];
      assert p[0] == s[0];
      DecimalOfDigits(p);
      DigitsValueBounds(p);
      var v := DigitsValue(p);
      var d := DigitValue(s[|s| - 1]);
      assert v >= 1;
      var n := v * 10 + d;
      assert n / 10 == v && n % 10 == d;
      assert DigitChar(d) == s[|s| - 1];
      assert DecimalString(n) == DecimalString(v) + [DigitChar(d)];
      assert s == p + [s[|s| - 1]];
    }
  }

  /** The number of digits str() prints for an n in [10^(k-1), 10^k). */
  lemma {:induction false} DecimalLength(n: nat, k: nat)
    requires k >= 1 && Pow10(k - 1) <= n < Pow10(k)
    ensures |DecimalString(n)| == k
    decreases k
  {
    if k > 1 {
      assert Pow10(k - 1) == 10 * Pow10(k - 2);
      assert n >= 10;
      DecimalLength(n / 10, k - 1);
    }
  }

  // ---------------------------------------------------------------------------
  // Retrieval tokens

  const TokenLow: nat := 100000000
  const TokenHigh: nat := 999999999

  /** A retrieval token: exactly nine decimal digits, the first not '0'. */
  predicate IsToken(s: string)
  {
    |s| == 9 && AllDigits(s) && s[0] != '0'
  }

  /** str(n) of a draw n of random.randint(100000000, 999999999) is a token that reads back as n. */
  lemma CandidateToken(n: nat)
    requires TokenLow <= n <= TokenHigh
    ensures IsToken(DecimalString(n))
    ensures DigitsValue(DecimalString(n)) == n
  {
    assert Pow10(8) == TokenLow;
    assert Pow10(9) == TokenHigh + 1;
    DecimalLength(n, 9);
    DigitsValueOfDecimal(n);
  }

  /** Distinct draws give distinct tokens. */
  lemma CandidateTokenInjective(m: nat, n: nat)
    requires TokenLow <= m <= TokenHigh && TokenLow <= n <= TokenHigh
    ensures DecimalString(m) == DecimalString(n) <==> m == n
  {
    CandidateToken(m);
    CandidateToken(n);
  }

  /** The tokens are exactly the strings str() prints for the draws of the generator. */
  lemma TokenIffCandidate(s: string)
    ensures IsToken(s) <==> exists n: nat :: TokenLow <= n <= TokenHigh && s == DecimalString(n)
  {
    if IsToken(s) {
      DigitsValueBounds(s);
      assert Pow10(8) == TokenLow;
      assert Pow10(9) == TokenHigh + 1;
      assert DigitValue(s[0]) >= 1;
      DecimalOfDigits(s);
      var n := DigitsValue(s);
      assert TokenLow <= n <= TokenHigh && s == DecimalString(n);
    }
    if exists n: nat :: TokenLow <= n <= TokenHigh && s == DecimalString(n) {
      var n: nat :| TokenLow <= n <= TokenHigh && s == DecimalString(n);
      CandidateToken(n);
    }
  }

  // ---------------------------------------------------------------------------
  // Signed integers

  /** str(n) for any int n. */
  function IntString(n: int): (s: string)
    ensures |s| >= 1 && (IsDigit(s[0]) || s[0] == '-') && IsDigit(s[|s| - 1])
  {
    if n < 0 then "-" + DecimalString(-n) else DecimalString(n)
  }

  /** The integer literals int() accepts here: an optional sign, then at least one ASCII digit. */
  predicate IsIntLiteral(s: string)
  {
    if |s| >= 1 && (s[0] == '-' || s[0] == '+') then |s| >= 2 && AllDigits(s[1..])
    else |s| >= 1 && AllDigits(s)
  }

  /** int(s) for a string without surrounding whitespace; None where Python raises ValueError. */
  function ParseInt(s: string): (r: Option<int>)
    ensures r.Some? <==> IsIntLiteral(s)
  {
    if |s| >= 1 && (s[0] == '-' || s[0] == '+') then
      if |s| >= 2 && AllDigits(s[1..]) then
        var v: int := DigitsValue(s[1..]);
        Some(if s[0] == '-' then -v else v)
      else None
    else if |s| >= 1 && AllDigits(s) then Some(DigitsValue(s))
    else None
  }

  /** int(str(n)) == n for every int n. */
  lemma ParseIntString(n: int)
    ensures ParseInt(IntString(n)) == Some(n)
  {
    if n < 0 {
      var d := DecimalString(-n);
      var s := "-" + d;
      assert s[0] == '-' && s[1..] == d;
      DigitsValueOfDecimal(-n);
      assert ParseInt(s) == Some(0 - DigitsValue(d) as int);
    } else {
      var d := DecimalString(n);
      assert IsDigit(d[0]);
      DigitsValueOfDecimal(n);
    }
  }
}
