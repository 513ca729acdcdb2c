/**
  Unpadded base64 (sections 3.2 and 4 of RFC 4648) as the Go decoder reads it: line breaks are
  skipped, and spare bits in the last character are not looked at.
 */
module Base64 {
  import opened Letters
  import opened Wrappers
  import opened Wire

  type Digit = d: int | 0 <= d < 64

  function CharOf(d: Digit): char
  {
    if d < 26 then 'A' + d as char
    else if d < 52 then 'a' + (d - 26) as char
    else if d < 62 then '0' + (d - 52) as char
    else if d == 62 then '+'
    else '/'
  }

  function DigitOf(c: char): Option<Digit>
  {
    if 'A' <= c <= 'Z' then Some(c as int - 'A' as int)
    else if 'a' <= c <= 'z' then Some(c as int - 'a' as int + 26)
    else if '0' <= c <= '9' then Some(c as int - '0' as int + 52)
    else if c == '+' then Some(62)
    else if c == '/' then Some(63)
    else None
  }

  lemma DigitOfChar(d: Digit)
    ensures DigitOf(CharOf(d)) == Some(d)
  {
  }

  // ---------- Digits ----------

  function Digit0(x: Byte): Digit { x / 4 }

  function Digit1(x: Byte, y: Byte): Digit { x % 4 * 16 + y / 16 }

  function Digit2(y: Byte, z: Byte): Digit { y % 16 * 4 + z / 64 }

  function Digit3(z: Byte): Digit { z % 64 }

  function Quad(x: Byte, y: Byte, z: Byte): seq<Digit>
  {
    [Digit0(x), Digit1(x, y), Digit2(y, z), Digit3(z)]
  }

  /** Three bytes to four digits; one or two bytes left over are padded with zero bits to two or three digits. */
  function Digits(b: seq<Byte>): seq<Digit>
  {
    if |b| == 0 then []
    else if |b| == 1 then [Digit0(b[0]), Digit1(b[0], 0)]
    else if |b| == 2 then [Digit0(b[0]), Digit1(b[0], b[1]), Digit2(b[1], 0)]
    else Quad(b[0], b[1], b[2]) + Digits(b[3..])
  }

  function Byte0(a: Digit, b: Digit): Byte { a * 4 + b / 16 }

  function Byte1(b: Digit, c: Digit): Byte { b % 16 * 16 + c / 4 }

  function Byte2(c: Digit, d: Digit): Byte { c % 4 * 64 + d }

  /** Four digits at a time; two or three left over are one or two bytes, and one is an error. */
  function Bytes(d: seq<Digit>): Option<seq<Byte>>
  {
    if |d| == 0 then Some([])
    else if |d| == 1 then None
    else if |d| == 2 then Some([Byte0(d[0], d[1])])
    else if |d| == 3 then Some([Byte0(d[0], d[1]), Byte1(d[1], d[2])])
    else match Bytes(d[4..])
      case None => None
      case Some(rest) => Some([Byte0(d[0], d[1]), Byte1(d[1], d[2]), Byte2(d[2], d[3])] + rest)
  }

  lemma BytesOfThree(x: Byte, y: Byte, z: Byte)
    ensures Byte0(Digit0(x), Digit1(x, y)) == x
    ensures Byte1(Digit1(x, y), Digit2(y, z)) == y
    ensures Byte2(Digit2(y, z), Digit3(z)) == z
  {
  }

  lemma BytesOfFour(d: seq<Digit>, rest: seq<Digit>)
    requires |d| == 4 && Bytes(rest).Some?
    ensures Bytes(d + rest) == Some([Byte0(d[0], d[1]), Byte1(d[1], d[2]), Byte2(d[2], d[3])] + Bytes(rest).value)
  {
    assert (d + rest)[4..] == rest;
  }

  lemma BytesOfQuad(x: Byte, y: Byte, z: Byte, rest: seq<Digit>)
    requires Bytes(rest).Some?
    ensures Bytes(Quad(x, y, z) + rest) == Some([x, y, z] + Bytes(rest).value)
  {
    BytesOfFour(Quad(x, y, z), rest);
    BytesOfThree(x, y, z);
  }

  lemma BytesOfPair(c: Digit, d: Digit)
    ensures Bytes([c, d]) == Some([Byte0(c, d)])
  {
  }

  lemma BytesOfOne(x: Byte)
    ensures Bytes([Digit0(x), Digit1(x, 0)]) == Some([x])
  {
    BytesOfPair(Digit0(x), Digit1(x, 0));
    BytesOfThree(x, 0, 0);
  }

  lemma BytesOfTwo(x: Byte, y: Byte)
    ensures Bytes([Digit0(x), Digit1(x, y), Digit2(y, 0)]) == Some([x, y])
  {
    BytesOfThree(x, y, 0);
  }

  lemma {:induction false} BytesOfDigits(b: seq<Byte>)
    ensures Bytes(Digits(b)) == Some(b)
  {
    if |b| == 0 {
    } else if |b| == 1 {
      BytesOfOne(b[0]);
      assert b == [b[0]];
      assert Digits(b) == [Digit0(b[0]), Digit1(b[0], 0)];
    } else if |b| == 2 {
      BytesOfTwo(b[0], b[1]);
      assert b == [b[0], b[1]];
      assert Digits(b) == [Digit0(b[0]), Digit1(b[0], b[1]), Digit2(b[1], 0)];
    } else {
      BytesOfDigits(b[3..]);
      BytesOfQuad(b[0], b[1], b[2], Digits(b[3..]));
      assert b == [b[0], b[1], b[2]] + b[3..];
      assert Digits(b) == Quad(b[0], b[1], b[2]) + Digits(b[3..]);
    }
  }

  // ---------- Text ----------

  function Encode(b: seq<Byte>): string
  {
    Text(Digits(b))
  }

  function Text(d: seq<Digit>): string
  {
    seq(|d|, i requires 0 <= i < |d| => CharOf(d[i]))
  }

  /** The digits of a text without its line breaks, unless some other character is no digit. */
  function Read(s: string): Option<seq<Digit>>
  {
    if s == "" then Some([])
    else if s[0] == '\n' || s[0] == '\r' then Read(s[1..])
    else match (DigitOf(s[0]), Read(s[1..]))
      case (Some(d), Some(rest)) => Some([d] + rest)
      case _ => None
  }

  function Decode(s: string): Option<seq<Byte>>
  {
    match Read(s)
    case None => None
    case Some(d) => Bytes(d)
  }

  lemma {:induction false} ReadText(d: seq<Digit>)
    ensures Read(Text(d)) == Some(d)
  {
    if d != [] {
      ReadText(d[1..]);
      DigitOfChar(d[0]);
      assert Text(d)[1..] == Text(d[1..]);
      assert d == [d[0]] + d[1..];
    }
  }

  /** Decoding undoes encoding. */
  lemma RoundTrip(b: seq<Byte>)
    ensures Decode(Encode(b)) == Some(b)
  {
    ReadText(Digits(b));
    BytesOfDigits(b);
  }

  /** A line break anywhere changes nothing. */
  lemma {:induction false} LineBreaksSkipped(a: string, b: string, c: char)
    requires c == '\n' || c == '\r'
    ensures Decode(a + [c] + b) == Decode(a + b)
  {
    ReadSkips(a, b, c);
  }

  lemma {:induction false} ReadSkips(a: string, b: string, c: char)
    requires c == '\n' || c == '\r'
    ensures Read(a + [c] + b) == Read(a + b)
  {
    if a == "" {
      assert (a + [c] + b)[1..] == b && a + b == b;
    } else {
      ReadSkips(a[1..], b, c);
      assert (a + [c] + b)[1..] == a[1..] + [c] + b;
      assert (a + b)[1..] == a[1..] + b;
    }
  }

  // ---------- The alphabet ----------

  /** Table 1 of RFC 4648. */
  const ALPHABET := UPPER + LOWER + DIGITS + "+/"

  lemma AlphabetAt(d: Digit)
    ensures |ALPHABET| == 64 && CharOf(d) == ALPHABET[d]
  {
    LetterAt(if d < 26 then d else if d < 52 then d - 26 else 0);
    DigitAt(if 52 <= d < 62 then d - 52 else 0);
  }

  /** A digit is written as the character in its place of the alphabet, and only that character is read as it. */
  lemma AlphabetIs(d: Digit, c: char)
    ensures |ALPHABET| == 64 && CharOf(d) == ALPHABET[d]
    ensures DigitOf(c) == Some(d) <==> c == ALPHABET[d]
  {
    AlphabetAt(d);
    DigitOfChar(d);
  }

  /** No character outside the alphabet is a digit. */
  lemma DigitIff(c: char)
    ensures DigitOf(c).Some? <==> c in ALPHABET
  {
    AlphabetAt(0);
    if DigitOf(c).Some? {
      AlphabetIs(DigitOf(c).value, c);
    }
    if c in ALPHABET {
      var i :| 0 <= i < |ALPHABET| && ALPHABET[i] == c;
      AlphabetIs(i, c);
    }
  }

  predicate IsBreak(c: char)
  {
    c == '\n' || c == '\r'
  }

  /** A text is read exactly when it has nothing but digits and line breaks. */
  lemma {:induction false} ReadIff(s: string)
    ensures Read(s).Some? <==> forall c | c in s :: IsBreak(c) || c in ALPHABET
  {
    if s != "" {
      ReadIff(s[1..]);
      DigitIff(s[0]);
      assert s == [s[0]] + s[1..];
    }
  }

  /** One digit too many is an error; otherwise four digits make three bytes, and the spare bits are dropped. */
  lemma {:induction false} BytesIff(d: seq<Digit>)
    ensures Bytes(d).Some? <==> |d| % 4 != 1
    ensures Bytes(d).Some? ==> |Bytes(d).value| == |d| * 3 / 4
  {
    if |d| >= 4 {
      BytesIff(d[4..]);
    }
  }
}
