/** The letters and digits of ASCII, spelled out. */
module Letters {

  const UPPER := "ABCDEFGHIJKLMNOPQRSTUVWXYZ"
  const LOWER := "abcdefghijklmnopqrstuvwxyz"
  const DIGITS := "0123456789"

  lemma LetterAt(k: nat)
    requires k < 26
    ensures |UPPER| == |LOWER| == 26 && UPPER[k] == 'A' + k as char && LOWER[k] == 'a' + k as char
  {
  }

  lemma DigitAt(k: nat)
    requires k < 10
    ensures |DIGITS| == 10 && DIGITS[k] == '0' + k as char
  {
  }

  lemma UpperIff(c: char)
    ensures c in UPPER <==> 'A' <= c <= 'Z'
  {
    if 'A' <= c <= 'Z' {
      var k := c as int - 'A' as int;
      LetterAt(k);
      assert UPPER[k] == c;
    }
    if k: nat :| k < |UPPER| && UPPER[k] == c {
      LetterAt(k);
    }
  }
}
