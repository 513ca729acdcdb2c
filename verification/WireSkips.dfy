/**
  Writing the values that a decoder skips, groups within groups included: skipping takes exactly what
  was written, as long as groups are not nested too deep.
 */
module WireSkips {
  import opened Wire

  // ---------- Writing ----------

  datatype Payload =
    | Number(v: nat)
    | Four(bytes: seq<Byte>)
    | Eight(bytes: seq<Byte>)
    | Blob(bytes: seq<Byte>)
    | Group(parts: Parts)

  /** The fields of a group. */
  datatype Parts = Nil | Cons(num: nat, value: Payload, rest: Parts)

  /** The wire types of the Protocol Buffers encoding. */
  function TypeOf(p: Payload): nat
  {
    match p
    case Number(_) => 0
    case Eight(_) => 1
    case Blob(_) => 2
    case Group(_) => 3
    case Four(_) => 5
  }

  /** What is written behind the tag of a field; a group ends with a tag of its own number and type 4. */
  function Written(num: nat, p: Payload): seq<Byte>
    decreases p
  {
    match p
    case Number(v) => AppendVarint(v)
    case Four(b) => b
    case Eight(b) => b
    case Blob(b) => AppendBytes(b)
    case Group(parts) => WrittenParts(parts) + AppendTag(num, 4)
  }

  function WrittenParts(parts: Parts): seq<Byte>
    decreases parts
  {
    match parts
    case Nil => []
    case Cons(num, value, rest) => AppendTag(num, TypeOf(value)) + Written(num, value) + WrittenParts(rest)
  }

  predicate Writable(p: Payload)
    decreases p
  {
    match p
    case Number(v) => v < UINT64_VALUES
    case Four(b) => |b| == 4
    case Eight(b) => |b| == 8
    case Blob(b) => |b| < UINT64_VALUES
    case Group(parts) => WritableParts(parts)
  }

  predicate WritableParts(parts: Parts)
    decreases parts
  {
    match parts
    case Nil => true
    case Cons(num, value, rest) => 1 <= num <= MAX_INT32 && Writable(value) && WritableParts(rest)
  }

  /** How deep groups are nested. */
  function Nesting(p: Payload): nat
    decreases p
  {
    match p
    case Group(parts) => 1 + PartsNesting(parts)
    case _ => 0
  }

  function PartsNesting(parts: Parts): nat
    decreases parts
  {
    match parts
    case Nil => 0
    case Cons(_, value, rest) => if Nesting(value) > PartsNesting(rest) then Nesting(value) else PartsNesting(rest)
  }

  // ---------- Skipping ----------

  function Skipped(fits: bool, n: nat): Read<()>
  {
    if fits then Read((), n) else Bad
  }

  lemma {:induction false} ValueSkipped(num: nat, p: Payload, rest: seq<Byte>, depth: int)
    requires 1 <= num <= MAX_INT32 && Writable(p) && depth >= -1
    ensures ConsumeValue(num, TypeOf(p), Written(num, p) + rest, depth)
         == Skipped(Nesting(p) <= depth + 1, |Written(num, p)|)
    decreases p
  {
    match p
    case Number(v) => VarintRoundTrip(v, rest);
    case Four(_) =>
    case Eight(_) =>
    case Blob(b) => BytesRoundTrip(b, rest);
    case Group(parts) =>
      if depth >= 0 {
        GroupSkipped(num, num, parts, rest, depth);
        assert WrittenParts(parts) + AppendTag(num, 4) + rest == Written(num, p) + rest;
      }
  }

  /** The rest of a group: its fields, each with its tag, and an end tag, which has to be its own. */
  lemma {:induction false} GroupSkipped(num: nat, last: nat, parts: Parts, rest: seq<Byte>, depth: nat)
    requires 1 <= last <= MAX_INT32 && WritableParts(parts)
    ensures ConsumeGroup(num, WrittenParts(parts) + AppendTag(last, 4) + rest, depth)
         == Skipped(PartsNesting(parts) <= depth && last == num, |WrittenParts(parts) + AppendTag(last, 4)|)
    decreases parts
  {
    match parts
    case Nil =>
      TagRoundTrip(last, 4, rest);
      assert WrittenParts(parts) + AppendTag(last, 4) == AppendTag(last, 4);
    case Cons(n, value, more) =>
      var tail := WrittenParts(more) + AppendTag(last, 4) + rest;
      ValueSkipped(n, value, tail, depth - 1);
      GroupSkipped(num, last, more, rest, depth);
      OneField(num, n, TypeOf(value), Written(n, value), tail, depth, Nesting(value) <= depth,
               PartsNesting(more) <= depth && last == num, |WrittenParts(more) + AppendTag(last, 4)|);
      Arrange(AppendTag(n, TypeOf(value)), Written(n, value), WrittenParts(more), AppendTag(last, 4), rest);
  }

  lemma Arrange<T>(a: seq<T>, b: seq<T>, c: seq<T>, d: seq<T>, e: seq<T>)
    ensures a + b + c + d + e == a + (b + (c + d + e))
  {
  }

  lemma OneField(num: nat, n: nat, typ: nat, written: seq<Byte>, tail: seq<Byte>, depth: nat,
                 fits: bool, restFits: bool, taken: nat)
    requires 1 <= n <= MAX_INT32 && typ < 8 && typ != 4 && taken <= |tail|
    requires ConsumeValue(n, typ, written + tail, depth - 1) == Skipped(fits, |written|)
    requires ConsumeGroup(num, tail, depth) == Skipped(restFits, taken)
    ensures ConsumeGroup(num, AppendTag(n, typ) + (written + tail), depth)
         == Skipped(fits && restFits, |AppendTag(n, typ)| + |written| + taken)
  {
    TagRoundTrip(n, typ, written + tail);
    var tag := AppendTag(n, typ);
    assert (tag + (written + tail))[|tag|..] == written + tail;
    FieldSkipped(num, n, typ, written, tail, depth, fits, restFits, taken);
  }

  lemma FieldSkipped(num: nat, n: nat, typ: nat, written: seq<Byte>, tail: seq<Byte>, depth: nat,
                     fits: bool, restFits: bool, taken: nat)
    requires typ != 4 && taken <= |tail|
    requires ConsumeValue(n, typ, written + tail, depth - 1) == Skipped(fits, |written|)
    requires ConsumeGroup(num, tail, depth) == Skipped(restFits, taken)
    ensures ConsumeAfterTag(num, Tag(n, typ), written + tail, depth) == Skipped(fits && restFits, |written| + taken)
  {
    assert (written + tail)[|written|..] == tail;
  }

  /** Skipping undoes writing, whatever follows, exactly when no more than 10001 groups are within each other. */
  lemma FieldValueSkipped(num: nat, p: Payload, rest: seq<Byte>)
    requires 1 <= num <= MAX_INT32 && Writable(p)
    ensures ConsumeFieldValue(num, TypeOf(p), Written(num, p) + rest)
         == if Nesting(p) <= 10001 then Read((), |Written(num, p)|) else Bad
  {
    ValueSkipped(num, p, rest, RECURSION_LIMIT);
  }

  /** A group that ends with the tag of another number cannot be skipped. */
  lemma WrongEnd(num: nat, other: nat, parts: Parts, rest: seq<Byte>)
    requires 1 <= other <= MAX_INT32 && other != num && WritableParts(parts)
    ensures ConsumeFieldValue(num, 3, WrittenParts(parts) + AppendTag(other, 4) + rest).Bad?
  {
    GroupSkipped(num, other, parts, rest, RECURSION_LIMIT);
  }

  /** A wire type that there is none of, or the end of a group outside one, cannot be skipped. */
  lemma NoSuchType(num: nat, typ: nat, b: seq<Byte>)
    requires typ !in [0, 1, 2, 3, 5]
    ensures ConsumeFieldValue(num, typ, b).Bad?
  {
  }
}
