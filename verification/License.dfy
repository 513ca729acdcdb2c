/** The CockroachDB license decoder: a message of six known fields over base64. */
module License {
  import opened Wrappers
  import opened Wire
  import Base64

  const PREFIX := "crl-0-"

  /** The organization name is bytes, as Go strings are. */
  datatype Info = Info(
    validUntil: nat,
    licenseType: nat,
    organizationName: seq<Byte>,
    environment: nat,
    licenseId: string,
    organizationId: string)

  const EMPTY := Info(0, 0, [], 0, "", "")

  datatype Error =
    | InvalidString
    | InvalidTag
    | FieldType(num: nat)
    | BadField(num: nat)
    | Overflow(num: nat)
    | Length(num: nat)
    | UnknownField(num: nat)

  // ---------- UUIDs ----------

  function HexChar(d: int): char
    requires 0 <= d < 16
  {
    if d < 10 then '0' + d as char else 'a' + (d - 10) as char
  }

  function Hex(b: seq<Byte>): (s: string)
    ensures |s| == 2 * |b|
  {
    if b == [] then "" else HexPair(b[0]) + Hex(b[1..])
  }

  function HexPair(b: Byte): (s: string)
    ensures |s| == 2
  {
    [HexChar(b / 16), HexChar(b % 16)]
  }

  /** What a hexadecimal digit stands for, or -1. */
  function HexValue(c: char): int
  {
    if '0' <= c <= '9' then c as int - '0' as int
    else if 'a' <= c <= 'f' then c as int - 'a' as int + 10
    else -1
  }

  lemma HexPairInjective(a: Byte, b: Byte)
    requires HexPair(a) == HexPair(b)
    ensures a == b
  {
    assert HexPair(a)[0] == HexPair(b)[0] && HexPair(a)[1] == HexPair(b)[1];
  }

  function FormatUUID(b: seq<Byte>): string
    requires |b| == 16
  {
    Hex(b[0..4]) + "-" + Hex(b[4..6]) + "-" + Hex(b[6..8]) + "-" + Hex(b[8..10]) + "-" + Hex(b[10..16])
  }

  lemma {:induction false} HexInjective(a: seq<Byte>, b: seq<Byte>)
    requires Hex(a) == Hex(b)
    ensures a == b
  {
    assert |a| == |b|;
    if a != [] {
      assert Hex(a)[..2] == HexPair(a[0]) && Hex(b)[..2] == HexPair(b[0]);
      assert Hex(a)[2..] == Hex(a[1..]) && Hex(b)[2..] == Hex(b[1..]);
      HexPairInjective(a[0], b[0]);
      HexInjective(a[1..], b[1..]);
      assert a == [a[0]] + a[1..] && b == [b[0]] + b[1..];
    }
  }

  /** Five parts between hyphens, whose digits are those of the whole. */
  lemma Hyphens(p: string, q: string, r: string, t: string, u: string)
    requires |p| == 8 && |q| == 4 && |r| == 4 && |t| == 4 && |u| == 12
    requires '-' !in p && '-' !in q && '-' !in r && '-' !in t && '-' !in u
    ensures var s := p + "-" + q + "-" + r + "-" + t + "-" + u;
            && |s| == 36
            && (forall i | 0 <= i < 36 :: s[i] == '-' <==> i in {8, 13, 18, 23})
            && s[0..8] == p && s[9..13] == q && s[14..18] == r && s[19..23] == t && s[24..36] == u
  {
  }

  /** The digits of an id without its hyphens. */
  function Unhyphened(s: string): string
    requires |s| == 36
  {
    s[0..8] + s[9..13] + s[14..18] + s[19..23] + s[24..36]
  }

  /** Eight, four, four, four and twelve digits between hyphens. */
  lemma UUIDForm(b: seq<Byte>)
    requires |b| == 16
    ensures |FormatUUID(b)| == 36
    ensures forall i | 0 <= i < 36 :: FormatUUID(b)[i] == '-' <==> i in {8, 13, 18, 23}
    ensures Unhyphened(FormatUUID(b)) == Hex(b)
  {
    HexDigits(b[0..4]);
    HexDigits(b[4..6]);
    HexDigits(b[6..8]);
    HexDigits(b[8..10]);
    HexDigits(b[10..16]);
    Hyphens(Hex(b[0..4]), Hex(b[4..6]), Hex(b[6..8]), Hex(b[8..10]), Hex(b[10..16]));
    HexParts(b);
  }

  lemma {:induction false} HexAt(b: seq<Byte>, i: nat)
    requires i < |b|
    ensures Hex(b)[2 * i] == HexPair(b[i])[0] && Hex(b)[2 * i + 1] == HexPair(b[i])[1]
  {
    if i > 0 {
      HexAt(b[1..], i - 1);
      assert Hex(b)[2..] == Hex(b[1..]);
      assert Hex(b)[2 * i] == Hex(b[1..])[2 * (i - 1)] && Hex(b)[2 * i + 1] == Hex(b[1..])[2 * (i - 1) + 1];
    }
  }

  /** Without its hyphens an id has two digits for every byte: the first counts sixteens, the second ones. */
  lemma UUIDReadsBack(b: seq<Byte>, i: nat)
    requires |b| == 16 && i < 16
    ensures var digits := Unhyphened(FormatUUID(b));
            && |digits| == 32 && 0 <= HexValue(digits[2 * i]) < 16 && 0 <= HexValue(digits[2 * i + 1]) < 16
            && b[i] == 16 * HexValue(digits[2 * i]) + HexValue(digits[2 * i + 1])
  {
    UUIDForm(b);
    HexAt(b, i);
  }

  lemma HexParts(b: seq<Byte>)
    requires |b| == 16
    ensures Hex(b) == Hex(b[0..4]) + Hex(b[4..6]) + Hex(b[6..8]) + Hex(b[8..10]) + Hex(b[10..16])
  {
    HexSplit(b, 0, 4, 16);
    HexSplit(b, 4, 6, 16);
    HexSplit(b, 6, 8, 16);
    HexSplit(b, 8, 10, 16);
    assert b[0..16] == b;
    FiveJoined(Hex(b[0..4]), Hex(b[4..6]), Hex(b[6..8]), Hex(b[8..10]), Hex(b[10..16]));
  }

  lemma FiveJoined(a: string, b: string, c: string, d: string, e: string)
    ensures a + (b + (c + (d + e))) == a + b + c + d + e
  {
  }

  lemma HexSplit(b: seq<Byte>, i: nat, j: nat, k: nat)
    requires i <= j <= k <= |b|
    ensures Hex(b[i..k]) == Hex(b[i..j]) + Hex(b[j..k])
  {
    HexConcat(b[i..j], b[j..k]);
    assert b[i..k] == b[i..j] + b[j..k];
  }

  lemma {:induction false} HexDigits(b: seq<Byte>)
    ensures '-' !in Hex(b)
  {
    if b != [] {
      HexDigits(b[1..]);
    }
  }

  lemma {:induction false} HexConcat(a: seq<Byte>, b: seq<Byte>)
    ensures Hex(a + b) == Hex(a) + Hex(b)
  {
    if a == [] {
      assert a + b == b;
    } else {
      HexConcat(a[1..], b);
      assert (a + b)[1..] == a[1..] + b;
      Reassociate(HexPair(a[0]), Hex(a[1..]), Hex(b));
    }
  }

  lemma Reassociate<T>(a: seq<T>, b: seq<T>, c: seq<T>)
    ensures a + (b + c) == a + b + c
  {
  }

  lemma UUIDInjective(a: seq<Byte>, b: seq<Byte>)
    requires |a| == 16 && |b| == 16 && FormatUUID(a) == FormatUUID(b)
    ensures a == b
  {
    UUIDForm(a);
    UUIDForm(b);
    HexInjective(a, b);
  }

  function ConsumeUUIDBytes(data: seq<Byte>, typ: nat, num: nat): (r: Result<Read<string>, Error>)
    ensures r.Ok? ==> r.value.Read? && 1 <= r.value.n <= |data|
  {
    if typ != BYTES then Err(FieldType(num))
    else match ConsumeBytes(data)
      case Bad => Err(BadField(num))
      case Read(v, n) =>
        if |v| == 0 then Ok(Read("", n))
        else if |v| != 16 then Err(Length(num))
        else Ok(Read(FormatUUID(v), n))
  }

  // ---------- Records ----------

  /** What one record of the message does to the license. */
  datatype Update =
    | ValidUntil(v: nat)
    | LicenseType(t: nat)
    | OrganizationName(name: seq<Byte>)
    | Environment(e: nat)
    | LicenseId(id: string)
    | OrganizationId(org: string)
    | Nothing

  datatype Record = Record(update: Update, n: nat)

  function Apply(info: Info, u: Update): Info
  {
    match u
    case ValidUntil(v) => info.(validUntil := v)
    case LicenseType(t) => info.(licenseType := t)
    case OrganizationName(name) => info.(organizationName := name)
    case Environment(e) => info.(environment := e)
    case LicenseId(id) => info.(licenseId := id)
    case OrganizationId(org) => info.(organizationId := org)
    case Nothing => info
  }

  function ReadNumber(num: nat, typ: nat, data: seq<Byte>, max: nat): (r: Result<Read<nat>, Error>)
    ensures r.Ok? ==> r.value.Read? && 1 <= r.value.n <= |data|
  {
    if typ != VARINT then Err(FieldType(num))
    else match ConsumeVarint(data)
      case Bad => Err(BadField(num))
      case Read(v, n) => if v > max then Err(Overflow(num)) else Ok(Read(v, n))
  }

  function ReadName(typ: nat, data: seq<Byte>): (r: Result<Read<seq<Byte>>, Error>)
    ensures r.Ok? ==> r.value.Read? && 1 <= r.value.n <= |data|
  {
    if typ != BYTES then Err(FieldType(4))
    else match ConsumeBytes(data)
      case Bad => Err(BadField(4))
      case Read(v, n) => Ok(Read(v, n))
  }

  function AsRecord<T>(r: Result<Read<T>, Error>, update: T -> Update): Result<Record, Error>
  {
    match r
    case Ok(Read(v, n)) => Ok(Record(update(v), n))
    case Ok(Bad) => Err(InvalidTag)
    case Err(e) => Err(e)
  }

  /** The value that follows a tag. */
  function ReadField(num: nat, typ: nat, data: seq<Byte>): (r: Result<Record, Error>)
    ensures r.Ok? ==> r.value.n <= |data|
  {
    if num == 2 then AsRecord(ReadNumber(2, typ, data, MAX_INT64), v => ValidUntil(v))
    else if num == 3 then AsRecord(ReadNumber(3, typ, data, MAX_INT32), v => LicenseType(v))
    else if num == 4 then AsRecord(ReadName(typ, data), v => OrganizationName(v))
    else if num == 5 then AsRecord(ReadNumber(5, typ, data, MAX_INT32), v => Environment(v))
    else if num == 6 then AsRecord(ConsumeUUIDBytes(data, typ, 6), v => LicenseId(v))
    else if num == 7 then AsRecord(ConsumeUUIDBytes(data, typ, 7), v => OrganizationId(v))
    else match ConsumeFieldValue(num, typ, data)
      case Bad => Err(UnknownField(num))
      case Read(_, n) => Ok(Record(Nothing, n))
  }

  /** The first record of a message: a tag and its value. */
  function ReadRecord(data: seq<Byte>): (r: Result<Record, Error>)
    ensures r.Ok? ==> 1 <= r.value.n <= |data|
  {
    ReadTagged(ReadField, data)
  }

  /** A tag, and a value that is read by the tag. */
  function ReadTagged(field: (nat, nat, seq<Byte>) -> Result<Record, Error>, data: seq<Byte>): Result<Record, Error>
  {
    match ConsumeTag(data)
    case Bad => Err(InvalidTag)
    case Read(tag, n) => After(n, field(tag.num, tag.typ, data[n..]))
  }

  /** A record whose value starts at the n-th byte. */
  function After(n: nat, field: Result<Record, Error>): Result<Record, Error>
  {
    match field
    case Err(e) => Err(e)
    case Ok(Record(u, m)) => Ok(Record(u, n + m))
  }

  /** A way to read the first record off a message. */
  type Reader = seq<Byte> -> Result<Record, Error>

  /** A reader that always takes something, and never more than there is. */
  ghost predicate Advances(read: Reader)
  {
    forall data :: read(data).Ok? ==> 1 <= read(data).value.n <= |data|
  }

  /** The updates of a whole message, record by record; one bad record spoils the message. */
  ghost function Updates(read: Reader, data: seq<Byte>): Result<seq<Update>, Error>
    requires Advances(read)
    decreases |data|
  {
    if data == [] then Ok([])
    else match read(data)
      case Err(e) => Err(e)
      case Ok(Record(u, n)) =>
        match Updates(read, data[n..])
        case Err(e) => Err(e)
        case Ok(rest) => Ok([u] + rest)
  }

  function ApplyAll(info: Info, us: seq<Update>): Info
    decreases |us|
  {
    if us == [] then info else ApplyAll(Apply(info, us[0]), us[1..])
  }

  /** Decoding a message on top of what is known already. */
  ghost function Decoded(read: Reader, info: Info, data: seq<Byte>): Result<Info, Error>
    requires Advances(read)
  {
    match Updates(read, data)
    case Err(e) => Err(e)
    case Ok(us) => Ok(ApplyAll(info, us))
  }

  ghost function LicenseOf(s: string): Result<Option<Info>, Error>
  {
    if s == "" then Ok(None)
    else if !(PREFIX <= s) then Err(InvalidString)
    else match Base64.Decode(s[|PREFIX|..])
      case None => Err(InvalidString)
      case Some(data) =>
        match Decoded(ReadRecord, EMPTY, data)
        case Err(e) => Err(e)
        case Ok(info) => Ok(Some(info))
  }

  // ---------- The decoder ----------

  lemma ApplyAllMore(info: Info, us: seq<Update>, u: Update)
    ensures ApplyAll(info, us + [u]) == Apply(ApplyAll(info, us), u)
  {
    ApplyAllConcat(info, us, [u]);
  }

  lemma {:induction false} ApplyAllConcat(info: Info, a: seq<Update>, b: seq<Update>)
    ensures ApplyAll(info, a + b) == ApplyAll(ApplyAll(info, a), b)
    decreases |a|
  {
    if a == [] {
      assert a + b == b;
    } else {
      ApplyAllConcat(Apply(info, a[0]), a[1..], b);
      assert (a + b)[1..] == a[1..] + b;
    }
  }

  /** `done` was read off the front of `whole`, leaving `data`. */
  ghost predicate ReadSoFar(read: Reader, whole: seq<Byte>, done: seq<Update>, data: seq<Byte>)
    requires Advances(read)
  {
    match Updates(read, data)
    case Ok(rest) => Updates(read, whole) == Ok(done + rest)
    case Err(e) => Updates(read, whole) == Err(e)
  }

  lemma ReadNothing(read: Reader, whole: seq<Byte>)
    requires Advances(read)
    ensures ReadSoFar(read, whole, [], whole)
  {
    if Updates(read, whole).Ok? {
      assert [] + Updates(read, whole).value == Updates(read, whole).value;
    }
  }

  lemma ReadOneMore(read: Reader, whole: seq<Byte>, done: seq<Update>, data: seq<Byte>)
    requires Advances(read) && data != [] && ReadSoFar(read, whole, done, data)
    ensures read(data).Err? ==> Updates(read, whole) == Err(read(data).error)
    ensures read(data).Ok? ==>
              ReadSoFar(read, whole, done + [read(data).value.update], data[read(data).value.n..])
  {
    var r := read(data);
    if r.Ok? && Updates(read, data[r.value.n..]).Ok? {
      var rest := Updates(read, data[r.value.n..]).value;
      assert done + ([r.value.update] + rest) == done + [r.value.update] + rest;
    }
  }

  lemma ReadAll(read: Reader, whole: seq<Byte>, done: seq<Update>)
    requires Advances(read) && ReadSoFar(read, whole, done, [])
    ensures Updates(read, whole) == Ok(done)
  {
    assert done + [] == done;
  }

  method DecodeLicense(s: string) returns (r: Result<Option<Info>, Error>)
    ensures r == LicenseOf(s)
  {
    if s == "" {
      return Ok(None);
    }
    if !(PREFIX <= s) {
      return Err(InvalidString);
    }
    var payload := s[|PREFIX|..];
    var decoded := Base64.Decode(payload);
    if decoded.None? {
      return Err(InvalidString);
    }
    var info := DecodeMessage(decoded.value);
    if info.Err? {
      return Err(info.error);
    }
    return Ok(Some(info.value));
  }

  /** The loop over the records of a message, advancing `data` past each. */
  method DecodeMessage(message: seq<Byte>) returns (r: Result<Info, Error>)
    ensures r == Decoded(ReadRecord, EMPTY, message)
  {
    var data := message;
    var info := EMPTY;
    ghost var done: seq<Update> := [];
    ReadNothing(ReadRecord, message);
    while |data| > 0
      invariant ReadSoFar(ReadRecord, message, done, data) && info == ApplyAll(EMPTY, done)
      decreases |data|
    {
      ReadOneMore(ReadRecord, message, done, data);
      var next := DecodeRecord(data, info);
      if next.Err? {
        return Err(next.error);
      }
      ApplyAllMore(EMPTY, done, ReadRecord(data).value.update);
      done := done + [ReadRecord(data).value.update];
      info, data := next.value.0, data[next.value.1..];
    }
    ReadAll(ReadRecord, message, done);
    return Ok(info);
  }

  /** One round of the loop: the license after the first record, and the bytes it took. */
  method DecodeRecord(data: seq<Byte>, start: Info) returns (r: Result<(Info, nat), Error>)
    ensures match ReadRecord(data)
            case Err(e) => r == Err(e)
            case Ok(record) => r == Ok((Apply(start, record.update), record.n))
  {
    var tag := ConsumeTag(data);
    if tag.Bad? {
      return Err(InvalidTag);
    }
    var value := data[tag.n..];
    var field := DecodeField(tag.value.num, tag.value.typ, value, start);
    if field.Err? {
      return field;
    }
    return Ok((field.value.0, tag.n + field.value.1));
  }

  /** The switch on the field number: the license after the field, and the bytes it took. */
  method DecodeField(num: nat, typ: nat, data: seq<Byte>, start: Info) returns (r: Result<(Info, nat), Error>)
    ensures match ReadField(num, typ, data)
            case Err(e) => r == Err(e)
            case Ok(record) => r == Ok((Apply(start, record.update), record.n))
  {
    var info := start;
    match num {
      case 2 =>
        var v := ReadNumber(2, typ, data, MAX_INT64);
        if v.Err? {
          return Err(v.error);
        }
        info := info.(validUntil := v.value.value);
        return Ok((info, v.value.n));
      case 3 =>
        var v := ReadNumber(3, typ, data, MAX_INT32);
        if v.Err? {
          return Err(v.error);
        }
        info := info.(licenseType := v.value.value);
        return Ok((info, v.value.n));
      case 4 =>
        var v := ReadName(typ, data);
        if v.Err? {
          return Err(v.error);
        }
        info := info.(organizationName := v.value.value);
        return Ok((info, v.value.n));
      case 5 =>
        var v := ReadNumber(5, typ, data, MAX_INT32);
        if v.Err? {
          return Err(v.error);
        }
        info := info.(environment := v.value.value);
        return Ok((info, v.value.n));
      case 6 =>
        var v := ConsumeUUIDBytes(data, typ, 6);
        if v.Err? {
          return Err(v.error);
        }
        info := info.(licenseId := v.value.value);
        return Ok((info, v.value.n));
      case 7 =>
        var v := ConsumeUUIDBytes(data, typ, 7);
        if v.Err? {
          return Err(v.error);
        }
        info := info.(organizationId := v.value.value);
        return Ok((info, v.value.n));
      case _ =>
        var v := ConsumeFieldValue(num, typ, data);
        if v.Bad? {
          return Err(UnknownField(num));
        }
        return Ok((info, v.n));
    }
  }
}
