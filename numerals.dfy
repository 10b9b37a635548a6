/**
  The text `'%s' % n` gives for an integer `n`: an optional minus sign and the
  decimal digits, without leading zeros.
 */
module Numerals {
  import opened PyValues

  function DigitChar(d: int): (c: char)
    requires 0 <= d < 10
    ensures '0' <= c <= '9'
  {
    "0123456789"[d]
  }

  function DigitValue(c: char): int
    requires '0' <= c <= '9'
  {
    c as int - '0' as int
  }

  function Digits(n: nat): (s: string)
    ensures |s| >= 1
    ensures forall i :: 0 <= i < |s| ==> '0' <= s[i] <= '9'
  {
    if n < 10 then [DigitChar(n)] else Digits(n / 10) + [DigitChar(n % 10)]
  }

  /** `str(n)` / `'%s' % n` for an int. */
  function DecimalString(n: int): (s: string)
    ensures |s| >= 1
    ensures (n < 0) <==> s[0] == '-'
  {
    if n < 0 then "-" + Digits(-n) else Digits(n)
  }

  predicate AllDigits(s: string) {
    forall i :: 0 <= i < |s| ==> '0' <= s[i] <= '9'
  }

  /** `int(s)` restricted to what DecimalString produces: optional '-' then digits. */
  function ParseNat(s: string): Option<nat>
  {
    if s == [] || !AllDigits(s) then None
    else if |s| == 1 then Some(DigitValue(s[0]))
    else
      match ParseNat(s[..|s| - 1])
      case None => None
      case Some(m) => Some(m * 10 + DigitValue(s[|s| - 1]))
  }

  function ParseDecimal(s: string): Option<int>
  {
    if |s| > 0 && s[0] == '-' then
      match ParseNat(s[1..])
      case None => None
      case Some(m) => Some(0 - m as int)
    else
      match ParseNat(s)
      case None => None
      case Some(m) => Some(m)
  }

  lemma {:induction false} ParseDigits(n: nat)
    ensures ParseNat(Digits(n)) == Some(n)
  {
    if n >= 10 {
      var s := Digits(n);
      var q, r := n / 10, n % 10;
      assert s == Digits(q) + [DigitChar(r)];
      assert s[..|s| - 1] == Digits(q);
      ParseDigits(q);
      assert DigitValue(s[|s| - 1]) == r;
      assert AllDigits(s);
      assert ParseNat(s) == Some(q * 10 + r);
    } else {
      assert DigitValue(DigitChar(n)) == n;
    }
  }

  /** The decimal text of an integer reads back as that integer. */
  lemma {:induction false} ParseDecimalString(n: int)
    ensures ParseDecimal(DecimalString(n)) == Some(n)
  {
    var s := DecimalString(n);
    if n < 0 {
      ParseDigits(-n);
      assert s[1..] == Digits(-n);
    } else {
      ParseDigits(n);
      assert s == Digits(n) && s[0] != '-';
    }
  }
}
