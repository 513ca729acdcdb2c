/**
  What license messages mean: decoding undoes encoding, goes on from where it stopped, and does not
  mind unknown fields, repeated fields or the order of fields.
 */
module LicenseMessages {
  import opened Wrappers
  import opened Wire
  import opened License

  // ---------- Decoding in pieces ----------

  lemma NumberStays(num: nat, typ: nat, a: seq<Byte>, more: seq<Byte>, max: nat)
    requires ReadNumber(num, typ, a, max).Ok?
    ensures ReadNumber(num, typ, a + more, max) == ReadNumber(num, typ, a, max)
  {
    VarintStays(a, more, 0);
  }

  lemma NameStays(typ: nat, a: seq<Byte>, more: seq<Byte>)
    requires ReadName(typ, a).Ok?
    ensures ReadName(typ, a + more) == ReadName(typ, a)
  {
    BytesStay(a, more);
  }

  lemma UUIDStays(num: nat, typ: nat, a: seq<Byte>, more: seq<Byte>)
    requires ConsumeUUIDBytes(a, typ, num).Ok?
    ensures ConsumeUUIDBytes(a + more, typ, num) == ConsumeUUIDBytes(a, typ, num)
  {
    BytesStay(a, more);
  }

  lemma FieldStays(num: nat, typ: nat, a: seq<Byte>, more: seq<Byte>)
    requires ReadField(num, typ, a).Ok?
    ensures ReadField(num, typ, a + more) == ReadField(num, typ, a)
  {
    if num == 2 {
      NumberStays(2, typ, a, more, MAX_INT64);
    } else if num == 3 || num == 5 {
      NumberStays(num, typ, a, more, MAX_INT32);
    } else if num == 4 {
      NameStays(typ, a, more);
    } else if num == 6 || num == 7 {
      UUIDStays(num, typ, a, more);
    } else {
      ValueStays(num, typ, a, more, RECURSION_LIMIT);
    }
  }

  lemma RecordStays(a: seq<Byte>, more: seq<Byte>)
    requires ReadRecord(a).Ok?
    ensures ReadRecord(a + more) == ReadRecord(a)
  {
    TagStays(a, more);
    var tag := ConsumeTag(a);
    DropConcat(a, more, tag.n);
    FieldStays(tag.value.num, tag.value.typ, a[tag.n..], more);
    var field := ReadField(tag.value.num, tag.value.typ, a[tag.n..]);
    RecordAt(a, tag.value, tag.n, a[tag.n..], field);
    RecordAt(a + more, tag.value, tag.n, a[tag.n..] + more, field);
  }

  lemma RecordAt(data: seq<Byte>, tag: Tag, n: nat, value: seq<Byte>, field: Result<Record, Error>)
    requires n <= |data| && ConsumeTag(data) == Read(tag, n) && data[n..] == value
    requires ReadField(tag.num, tag.typ, value) == field
    ensures ReadRecord(data) == After(n, field)
  {
  }

  /** A reader that what follows a record does not disturb. */
  ghost predicate Steady(read: Reader)
  {
    Advances(read) && forall a, more :: read(a).Ok? ==> read(a + more) == read(a)
  }

  lemma ReadRecordSteady()
    ensures Steady(ReadRecord)
  {
    forall a, more | ReadRecord(a).Ok?
      ensures ReadRecord(a + more) == ReadRecord(a)
    {
      RecordStays(a, more);
    }
  }

  function Joined(a: seq<Update>, b: Result<seq<Update>, Error>): Result<seq<Update>, Error>
  {
    match b
    case Ok(us) => Ok(a + us)
    case Err(e) => Err(e)
  }

  lemma JoinedTwice(u: Update, a: seq<Update>, b: Result<seq<Update>, Error>)
    ensures Joined([u], Joined(a, b)) == Joined([u] + a, b)
  {
    if b.Ok? {
      assert [u] + (a + b.value) == [u] + a + b.value;
    }
  }

  /** The updates of one message after another. */
  lemma {:induction false} UpdatesConcat(read: Reader, a: seq<Byte>, b: seq<Byte>)
    requires Steady(read) && Updates(read, a).Ok?
    ensures Updates(read, a + b) == Joined(Updates(read, a).value, Updates(read, b))
    decreases |a|
  {
    if a == [] {
      assert a + b == b;
      if Updates(read, b).Ok? {
        assert [] + Updates(read, b).value == Updates(read, b).value;
      }
    } else {
      var r := read(a).value;
      assert read(a + b) == read(a);
      DropConcat(a, b, r.n);
      UpdatesConcat(read, a[r.n..], b);
      JoinedTwice(r.update, Updates(read, a[r.n..]).value, Updates(read, b));
    }
  }

  /** Decoding the rest of a message continues from what the front of it decodes to. */
  lemma DecodingContinues(read: Reader, info: Info, a: seq<Byte>, b: seq<Byte>)
    requires Steady(read) && Decoded(read, info, a).Ok?
    ensures Decoded(read, info, a + b) == Decoded(read, Decoded(read, info, a).value, b)
  {
    UpdatesConcat(read, a, b);
    if Updates(read, b).Ok? {
      ApplyAllConcat(info, Updates(read, a).value, Updates(read, b).value);
    }
  }

  /** `r` is one whole record. */
  ghost predicate IsRecord(read: Reader, r: seq<Byte>, u: Update)
  {
    read(r) == Ok(Record(u, |r|))
  }

  /** A message one record longer. */
  lemma RecordAppended(read: Reader, info: Info, a: seq<Byte>, r: seq<Byte>, u: Update)
    requires Steady(read) && Decoded(read, info, a).Ok? && IsRecord(read, r, u)
    ensures Decoded(read, info, a + r) == Ok(Apply(Decoded(read, info, a).value, u))
  {
    DecodingContinues(read, info, a, r);
    RecordDecoded(read, Decoded(read, info, a).value, r, u);
  }

  lemma RecordDecoded(read: Reader, info: Info, r: seq<Byte>, u: Update)
    requires Advances(read) && IsRecord(read, r, u)
    ensures Updates(read, r) == Ok([u]) && Decoded(read, info, r) == Ok(Apply(info, u))
  {
    assert r[|r|..] == [];
    assert Updates(read, []) == Ok([]);
    assert [u] + [] == [u] && [u][1..] == [];
    assert ApplyAll(info, [u]) == ApplyAll(Apply(info, u), []);
  }

  // ---------- Unknown fields ----------

  /** A field of any other number with a well-formed value of any type is a record that does nothing. */
  lemma UnknownField(num: nat, typ: nat, value: seq<Byte>)
    requires 1 <= num <= MAX_INT32 && !(2 <= num <= 7) && typ < 8
    requires ConsumeFieldValue(num, typ, value) == Read((), |value|)
    ensures IsRecord(ReadRecord, AppendTag(num, typ) + value, Update.Nothing)
  {
    FieldRecord(num, typ, value, Update.Nothing);
  }

  lemma FieldRecord(num: nat, typ: nat, value: seq<Byte>, u: Update)
    requires 1 <= num <= MAX_INT32 && typ < 8
    requires ReadField(num, typ, value) == Ok(Record(u, |value|))
    ensures IsRecord(ReadRecord, AppendTag(num, typ) + value, u)
  {
    TagRoundTrip(num, typ, value);
    TaggedRecord(ReadField, AppendTag(num, typ), Tag(num, typ), value, u);
  }

  lemma TaggedRecord(field: (nat, nat, seq<Byte>) -> Result<Record, Error>, t: seq<Byte>, tag: Tag, value: seq<Byte>,
                     u: Update)
    requires ConsumeTag(t + value) == Read(tag, |t|) && field(tag.num, tag.typ, value) == Ok(Record(u, |value|))
    ensures ReadTagged(field, t + value) == Ok(Record(u, |t + value|))
  {
    assert (t + value)[|t|..] == value;
  }

  /** Unknown fields change nothing, wherever they stand. */
  lemma UnknownFieldSkipped(read: Reader, info: Info, a: seq<Byte>, r: seq<Byte>, b: seq<Byte>)
    requires Steady(read) && Decoded(read, info, a).Ok? && IsRecord(read, r, Update.Nothing)
    ensures Decoded(read, info, a + r + b) == Decoded(read, info, a + b)
  {
    RecordAppended(read, info, a, r, Update.Nothing);
    DecodingContinues(read, info, a + r, b);
    DecodingContinues(read, info, a, b);
  }

  /** A message that is cut inside a record is rejected, whatever came before. */
  lemma CutRecordFails(read: Reader, info: Info, a: seq<Byte>, r: seq<Byte>, u: Update, k: nat)
    requires Steady(read) && Decoded(read, info, a).Ok? && IsRecord(read, r, u) && 0 < k < |r|
    ensures Decoded(read, info, a + r[..k]).Err?
  {
    assert r[..k] + r[k..] == r;
    assert read(r[..k]).Err?;
    assert Updates(read, r[..k]).Err?;
    DecodingContinues(read, info, a, r[..k]);
  }

  // ---------- Order and repetition ----------

  /** The field a record is for; 0 for none. */
  function FieldOf(u: Update): nat
  {
    match u
    case ValidUntil(_) => 2
    case LicenseType(_) => 3
    case OrganizationName(_) => 4
    case Environment(_) => 5
    case LicenseId(_) => 6
    case OrganizationId(_) => 7
    case Nothing => 0
  }

  lemma {:induction false} OverwrittenLater(info: Info, early: Update, us: seq<Update>, late: Update)
    requires FieldOf(early) == FieldOf(late)
    ensures Apply(ApplyAll(Apply(info, early), us), late) == Apply(ApplyAll(info, us), late)
    decreases |us|
  {
    if us != [] {
      var u := us[0];
      if FieldOf(u) == FieldOf(early) {
        assert Apply(Apply(info, early), u) == Apply(info, u);
      } else {
        assert Apply(Apply(info, early), u) == Apply(Apply(info, u), early);
        OverwrittenLater(Apply(info, u), early, us[1..], late);
      }
    }
  }

  /** When a field comes again later, its earlier record might as well not be there. */
  lemma LaterFieldWins(read: Reader, info: Info, a: seq<Byte>, early: seq<Byte>, b: seq<Byte>, late: seq<Byte>,
                       c: seq<Byte>, u: Update, v: Update)
    requires Steady(read) && IsRecord(read, early, u) && IsRecord(read, late, v) && FieldOf(u) == FieldOf(v)
    requires Decoded(read, info, a).Ok? && Updates(read, b).Ok?
    ensures Decoded(read, info, a + early + b + late + c) == Decoded(read, info, a + b + late + c)
  {
    RecordAppended(read, info, a, early, u);
    DecodingContinues(read, info, a + early, b);
    DecodingContinues(read, info, a, b);
    RecordAppended(read, info, a + early + b, late, v);
    RecordAppended(read, info, a + b, late, v);
    OverwrittenLater(Decoded(read, info, a).value, u, Updates(read, b).value, v);
    DecodingContinues(read, info, a + early + b + late, c);
    DecodingContinues(read, info, a + b + late, c);
  }

  /** Two fields may come in either order. */
  lemma FieldsCommute(read: Reader, info: Info, a: seq<Byte>, r: seq<Byte>, s: seq<Byte>, b: seq<Byte>,
                      u: Update, v: Update)
    requires Steady(read) && IsRecord(read, r, u) && IsRecord(read, s, v) && FieldOf(u) != FieldOf(v)
    requires Decoded(read, info, a).Ok?
    ensures Decoded(read, info, a + r + s + b) == Decoded(read, info, a + s + r + b)
  {
    RecordAppended(read, info, a, r, u);
    RecordAppended(read, info, a + r, s, v);
    RecordAppended(read, info, a, s, v);
    RecordAppended(read, info, a + s, r, u);
    UpdatesCommute(Decoded(read, info, a).value, u, v);
    DecodingContinues(read, info, a + r + s, b);
    DecodingContinues(read, info, a + s + r, b);
  }

  lemma UpdatesCommute(info: Info, u: Update, v: Update)
    requires FieldOf(u) != FieldOf(v)
    ensures Apply(Apply(info, u), v) == Apply(Apply(info, v), u)
  {
  }

  // ---------- Encoding ----------

  /** A license before encoding, with its ids as bytes. */
  datatype Plain = Plain(
    validUntil: nat,
    licenseType: nat,
    organizationName: seq<Byte>,
    environment: nat,
    licenseId: seq<Byte>,
    organizationId: seq<Byte>)

  predicate Encodable(p: Plain)
  {
    && p.validUntil <= MAX_INT64 && p.licenseType <= MAX_INT32 && p.environment <= MAX_INT32
    && |p.organizationName| < UINT64_VALUES
    && |p.licenseId| in {0, 16} && |p.organizationId| in {0, 16}
  }

  function NumberRecord(num: nat, v: nat): seq<Byte>
  {
    AppendTag(num, VARINT) + AppendVarint(v)
  }

  function BytesRecord(num: nat, v: seq<Byte>): seq<Byte>
  {
    AppendTag(num, BYTES) + AppendBytes(v)
  }

  function EncodeMessage(p: Plain): seq<Byte>
  {
    NumberRecord(2, p.validUntil) + NumberRecord(3, p.licenseType) + BytesRecord(4, p.organizationName)
    + NumberRecord(5, p.environment) + BytesRecord(6, p.licenseId) + BytesRecord(7, p.organizationId)
  }

  function EncodeLicense(p: Plain): string
  {
    PREFIX + Base64.Encode(EncodeMessage(p))
  }

  function IdText(id: seq<Byte>): string
    requires |id| in {0, 16}
  {
    if id == [] then "" else FormatUUID(id)
  }

  function InfoOf(p: Plain): Info
    requires Encodable(p)
  {
    Info(p.validUntil, p.licenseType, p.organizationName, p.environment, IdText(p.licenseId), IdText(p.organizationId))
  }

  lemma NumberRead(num: nat, v: nat, max: nat)
    requires v <= max <= MAX_INT64
    ensures ReadNumber(num, VARINT, AppendVarint(v), max) == Ok(Read(v, |AppendVarint(v)|))
  {
    VarintRoundTrip(v, []);
    assert AppendVarint(v) + [] == AppendVarint(v);
  }

  lemma BytesRead(v: seq<Byte>)
    requires |v| < UINT64_VALUES
    ensures ConsumeBytes(AppendBytes(v)) == Read(v, |AppendBytes(v)|)
  {
    BytesRoundTrip(v, []);
    assert AppendBytes(v) + [] == AppendBytes(v);
  }

  /** The field of an id: its type, its length and its text; bytes cut short are an error. */
  lemma UUIDFieldRead(v: seq<Byte>, rest: seq<Byte>, typ: nat, num: nat)
    requires |v| < UINT64_VALUES
    ensures ConsumeUUIDBytes(AppendBytes(v) + rest, typ, num)
         == if typ != BYTES then Err(FieldType(num))
            else if |v| in {0, 16} then Ok(Read(IdText(v), |AppendBytes(v)|))
            else Err(Length(num))
    ensures forall k | 0 <= k < |AppendBytes(v)| && typ == BYTES ::
              ConsumeUUIDBytes(AppendBytes(v)[..k], typ, num) == Err(BadField(num))
  {
    BytesRoundTrip(v, rest);
    forall k | 0 <= k < |AppendBytes(v)| && typ == BYTES
      ensures ConsumeUUIDBytes(AppendBytes(v)[..k], typ, num) == Err(BadField(num))
    {
      BytesCutShort(v, k);
    }
  }

  lemma ValidUntilRecord(v: nat)
    requires v <= MAX_INT64
    ensures IsRecord(ReadRecord, NumberRecord(2, v), ValidUntil(v))
  {
    NumberRead(2, v, MAX_INT64);
    FieldRecord(2, VARINT, AppendVarint(v), ValidUntil(v));
  }

  lemma LicenseTypeRecord(v: nat)
    requires v <= MAX_INT32
    ensures IsRecord(ReadRecord, NumberRecord(3, v), LicenseType(v))
  {
    NumberRead(3, v, MAX_INT32);
    FieldRecord(3, VARINT, AppendVarint(v), LicenseType(v));
  }

  lemma EnvironmentRecord(v: nat)
    requires v <= MAX_INT32
    ensures IsRecord(ReadRecord, NumberRecord(5, v), Environment(v))
  {
    NumberRead(5, v, MAX_INT32);
    FieldRecord(5, VARINT, AppendVarint(v), Environment(v));
  }

  lemma OrganizationNameRecord(v: seq<Byte>)
    requires |v| < UINT64_VALUES
    ensures IsRecord(ReadRecord, BytesRecord(4, v), OrganizationName(v))
  {
    BytesRead(v);
    FieldRecord(4, BYTES, AppendBytes(v), OrganizationName(v));
  }

  lemma IdRecord(num: nat, v: seq<Byte>)
    requires num in {6, 7} && |v| in {0, 16}
    ensures IsRecord(ReadRecord, BytesRecord(num, v), if num == 6 then LicenseId(IdText(v)) else OrganizationId(IdText(v)))
  {
    BytesRead(v);
    assert ConsumeUUIDBytes(AppendBytes(v), BYTES, num) == Ok(Read(IdText(v), |AppendBytes(v)|));
    FieldRecord(num, BYTES, AppendBytes(v), if num == 6 then LicenseId(IdText(v)) else OrganizationId(IdText(v)));
  }

  /** The records of an encoded license, by whatever reader reads them as such. */
  lemma MessageDecoded(read: Reader, p: Plain)
    requires Encodable(p) && Steady(read)
    requires IsRecord(read, NumberRecord(2, p.validUntil), ValidUntil(p.validUntil))
    requires IsRecord(read, NumberRecord(3, p.licenseType), LicenseType(p.licenseType))
    requires IsRecord(read, BytesRecord(4, p.organizationName), OrganizationName(p.organizationName))
    requires IsRecord(read, NumberRecord(5, p.environment), Environment(p.environment))
    requires IsRecord(read, BytesRecord(6, p.licenseId), LicenseId(IdText(p.licenseId)))
    requires IsRecord(read, BytesRecord(7, p.organizationId), OrganizationId(IdText(p.organizationId)))
    ensures Decoded(read, EMPTY, EncodeMessage(p)) == Ok(InfoOf(p))
  {
    SixRecords(read, NumberRecord(2, p.validUntil), ValidUntil(p.validUntil),
               NumberRecord(3, p.licenseType), LicenseType(p.licenseType),
               BytesRecord(4, p.organizationName), OrganizationName(p.organizationName),
               NumberRecord(5, p.environment), Environment(p.environment),
               BytesRecord(6, p.licenseId), LicenseId(IdText(p.licenseId)),
               BytesRecord(7, p.organizationId), OrganizationId(IdText(p.organizationId)));
  }

  lemma SixRecords(read: Reader, a: seq<Byte>, ua: Update, b: seq<Byte>, ub: Update, c: seq<Byte>, uc: Update,
                   d: seq<Byte>, ud: Update, e: seq<Byte>, ue: Update, f: seq<Byte>, uf: Update)
    requires Steady(read) && IsRecord(read, a, ua) && IsRecord(read, b, ub) && IsRecord(read, c, uc)
    requires IsRecord(read, d, ud) && IsRecord(read, e, ue) && IsRecord(read, f, uf)
    ensures Decoded(read, EMPTY, a + b + c + d + e + f)
         == Ok(Apply(Apply(Apply(Apply(Apply(Apply(EMPTY, ua), ub), uc), ud), ue), uf))
  {
    RecordDecoded(read, EMPTY, a, ua);
    RecordAppended(read, EMPTY, a, b, ub);
    RecordAppended(read, EMPTY, a + b, c, uc);
    RecordAppended(read, EMPTY, a + b + c, d, ud);
    RecordAppended(read, EMPTY, a + b + c + d, e, ue);
    RecordAppended(read, EMPTY, a + b + c + d + e, f, uf);
  }

  lemma MessageRoundTrip(p: Plain)
    requires Encodable(p)
    ensures Decoded(ReadRecord, EMPTY, EncodeMessage(p)) == Ok(InfoOf(p))
  {
    ValidUntilRecord(p.validUntil);
    LicenseTypeRecord(p.licenseType);
    OrganizationNameRecord(p.organizationName);
    EnvironmentRecord(p.environment);
    IdRecord(6, p.licenseId);
    IdRecord(7, p.organizationId);
    ReadRecordSteady();
    MessageDecoded(ReadRecord, p);
  }

  /** Decoding undoes encoding. */
  lemma LicenseRoundTrip(p: Plain)
    requires Encodable(p)
    ensures LicenseOf(EncodeLicense(p)) == Ok(Some(InfoOf(p)))
  {
    var s := EncodeLicense(p);
    assert PREFIX <= s && s[|PREFIX|..] == Base64.Encode(EncodeMessage(p));
    Base64.RoundTrip(EncodeMessage(p));
    MessageRoundTrip(p);
  }

  /** Nothing is lost: licenses that decode alike are alike. */
  lemma EncodingLosesNothing(p: Plain, q: Plain)
    requires Encodable(p) && Encodable(q) && LicenseOf(EncodeLicense(p)) == LicenseOf(EncodeLicense(q))
    ensures p == q
  {
    LicenseRoundTrip(p);
    LicenseRoundTrip(q);
    SameId(p.licenseId, q.licenseId);
    SameId(p.organizationId, q.organizationId);
  }

  lemma SameId(a: seq<Byte>, b: seq<Byte>)
    requires |a| in {0, 16} && |b| in {0, 16} && IdText(a) == IdText(b)
    ensures a == b
  {
    if |a| == 16 {
      UUIDForm(a);
    }
    if |b| == 16 {
      UUIDForm(b);
    }
    if |a| == 16 && |b| == 16 {
      UUIDInjective(a, b);
    }
  }

  // ---------- What is refused ----------

  /** A number is read up to the largest its type of int holds, and more is an error of its field. */
  lemma NumberFieldRead(num: nat, v: nat, rest: seq<Byte>)
    requires num in [2, 3, 5] && v < UINT64_VALUES
    ensures ReadField(num, 0, AppendVarint(v) + rest)
         == if v >= (if num == 2 then 0x8000_0000_0000_0000 else 0x8000_0000) then Err(Overflow(num))
            else Ok(Record(if num == 2 then ValidUntil(v) else if num == 3 then LicenseType(v) else Environment(v),
                           |AppendVarint(v)|))
  {
    VarintRoundTrip(v, rest);
  }

  /** Every known field has one wire type, 0 for numbers and 2 for the others. */
  lemma FieldTypesChecked(num: nat, typ: nat, data: seq<Byte>)
    requires 2 <= num <= 7 && typ != if num in [2, 3, 5] then 0 else 2
    ensures ReadField(num, typ, data) == Err(FieldType(num))
  {
  }

  /** A known field that is cut short is an error of that field. */
  lemma CutFieldFails(num: nat, v: nat, bytes: seq<Byte>, k: nat)
    requires 2 <= num <= 7 && v < UINT64_VALUES && |bytes| < UINT64_VALUES
    ensures num in [2, 3, 5] && k < |AppendVarint(v)| ==> ReadField(num, 0, AppendVarint(v)[..k]) == Err(BadField(num))
    ensures num in [4, 6, 7] && k < |AppendBytes(bytes)| ==> ReadField(num, 2, AppendBytes(bytes)[..k]) == Err(BadField(num))
  {
    if k < |AppendVarint(v)| {
      VarintCutShort(v, k);
    }
    if k < |AppendBytes(bytes)| {
      BytesCutShort(bytes, k);
    }
  }

  /** No text is no license, a text without the prefix or with other than base64 behind it is invalid. */
  lemma TextsRefused(s: string)
    ensures LicenseOf("") == Ok(None)
    ensures s != "" && !("crl-0-" <= s) ==> LicenseOf(s) == Err(InvalidString)
    ensures Base64.Decode(s).None? ==> LicenseOf("crl-0-" + s) == Err(InvalidString)
  {
    assert ("crl-0-" + s)[6..] == s;
  }

  /** What no record of a message gives is zero or empty. */
  lemma NothingGiven()
    ensures LicenseOf("crl-0-") == Ok(Some(Info(0, 0, [], 0, "", "")))
  {
    assert "crl-0-"[6..] == "";
    assert Base64.Decode("") == Some([]);
    ReadRecordSteady();
    assert Updates(ReadRecord, []) == Ok([]);
  }
}
