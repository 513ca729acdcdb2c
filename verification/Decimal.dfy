/** Reading and writing decimal numbers. */
module Decimal {
  import opened Letters
  import opened Wrappers

  function Itoa(n: nat): string
  {
    if n < 10 then ['0' + n as char] else Itoa(n / 10) + ['0' + (n % 10) as char]
  }

  predicate IsDigit(c: char)
  {
    '0' <= c <= '9'
  }

  /** The value of a non-empty string of digits. */
  function DigitsValue(s: string): Option<nat>
  {
    if s == "" then None
    else
      var n := |s| - 1;
      if !IsDigit(s[n]) then None
      else if n == 0 then Some(s[0] as int - '0' as int)
      else match DigitsValue(s[..n])
        case None => None
        case Some(v) => Some(10 * v + (s[n] as int - '0' as int))
  }

  const MAX_INT := 0x7fff_ffff_ffff_ffff

  /** A decimal number with an optional sign, in the range of an int. */
  function Atoi(s: string): Option<int>
  {
    if s == "" then None
    else if s[0] == '-' then InRange(DigitsValue(s[1..]), -1)
    else InRange(DigitsValue(if s[0] == '+' then s[1..] else s), 1)
  }

  function InRange(v: Option<nat>, sign: int): Option<int>
  {
    if v.Some? && -MAX_INT - 1 <= sign * v.value <= MAX_INT then Some(sign * v.value) else None
  }

  lemma {:induction false} ItoaValue(n: nat)
    ensures DigitsValue(Itoa(n)) == Some(n)
    ensures |Itoa(n)| > 0 && forall c | c in Itoa(n) :: IsDigit(c)
  {
    if n >= 10 {
      ItoaValue(n / 10);
      var s := Itoa(n);
      assert s[..|s| - 1] == Itoa(n / 10);
    }
  }

  lemma AtoiItoa(n: nat)
    requires n <= MAX_INT
    ensures Atoi(Itoa(n)) == Some(n)
  {
    ItoaValue(n);
    assert Itoa(n)[0] in Itoa(n);
  }

  /** Ten times a number and one digit more is written with that digit behind it. */
  lemma ItoaDigits(n: nat, d: nat)
    requires d < 10
    ensures |DIGITS| == 10 && Itoa(d) == [DIGITS[d]]
    ensures n > 0 ==> Itoa(10 * n + d) == Itoa(n) + [DIGITS[d]]
  {
    DigitAt(d);
  }

  /** A sign may stand before a number, which has to be in the range of an int. */
  lemma AtoiSigned(n: nat)
    ensures Atoi(Itoa(n)) == Atoi("+" + Itoa(n)) == if n < 0x8000_0000_0000_0000 then Some(n) else None
    ensures Atoi("-" + Itoa(n)) == if n <= 0x8000_0000_0000_0000 then Some(0 - n as int) else None
  {
    ItoaValue(n);
    SignedDigits(Itoa(n), n);
  }

  lemma SignedDigits(s: string, n: nat)
    requires s != "" && (forall c | c in s :: IsDigit(c)) && DigitsValue(s) == Some(n)
    ensures Atoi(s) == Atoi("+" + s) == if n < 0x8000_0000_0000_0000 then Some(n) else None
    ensures Atoi("-" + s) == if n <= 0x8000_0000_0000_0000 then Some(0 - n as int) else None
  {
    assert s[0] in s;
    assert ("+" + s)[1..] == s && ("-" + s)[1..] == s;
  }

  lemma {:induction false} DigitsOnly(s: string)
    ensures DigitsValue(s).Some? <==> s != "" && forall c | c in s :: IsDigit(c)
  {
    if s != "" {
      var n := |s| - 1;
      assert s == s[..n] + [s[n]];
      if n > 0 {
        DigitsOnly(s[..n]);
      }
    }
  }

  /** Nothing else is a number: after a sign, if there is one, come digits and nothing but digits. */
  lemma AtoiOnly(s: string)
    requires Atoi(s).Some?
    ensures s != ""
    ensures var digits := if s[0] == '-' || s[0] == '+' then s[1..] else s; digits != "" && forall c | c in digits :: IsDigit(c)
  {
    DigitsOnly(s);
    DigitsOnly(s[1..]);
  }
}
