/**
  The Protocol Buffers wire format, as the license decoder reads it: varints, tags, length-prefixed
  bytes and values to skip, with an encoder for the first three.
 */
module Wire {

  type Byte = b: int | 0 <= b < 256

  /** A value read off the front of a buffer with the number of bytes it took, or nothing. */
  datatype Read<T> = Read(value: T, n: nat) | Bad

  // ---------- Varints ----------

  /** The values a varint can still hold from its i-th byte on. */
  function Room(i: nat): (r: nat)
    requires i <= 9
    ensures r >= 2
    decreases 9 - i
  {
    if i == 9 then 2 else 128 * Room(i + 1)
  }

  /** Seven bits a byte, lowest first; the tenth byte is the last and holds one bit. */
  function ConsumeVarintAt(b: seq<Byte>, i: nat): (r: Read<nat>)
    requires i <= 9
    ensures r.Read? ==> 1 <= r.n <= |b| && r.value < Room(i)
    decreases 9 - i
  {
    if b == [] then Bad
    else if i == 9 then (if b[0] < 2 then Read(b[0], 1) else Bad)
    else if b[0] < 128 then Read(b[0], 1)
    else match ConsumeVarintAt(b[1..], i + 1)
      case Bad => Bad
      case Read(v, n) => Read(b[0] - 128 + 128 * v, n + 1)
  }

  const UINT64_VALUES := 0x1_0000_0000_0000_0000

  function ConsumeVarint(b: seq<Byte>): (r: Read<nat>)
    ensures r.Read? ==> 1 <= r.n <= |b| && r.value < UINT64_VALUES
  {
    assert Room(0) == UINT64_VALUES;
    ConsumeVarintAt(b, 0)
  }

  function AppendVarint(v: nat): seq<Byte>
  {
    if v < 128 then [v] else [v % 128 + 128] + AppendVarint(v / 128)
  }

  lemma {:induction false} VarintRoundTripAt(v: nat, rest: seq<Byte>, i: nat)
    requires i <= 9 && v < Room(i)
    ensures ConsumeVarintAt(AppendVarint(v) + rest, i) == Read(v, |AppendVarint(v)|)
    decreases 9 - i
  {
    if i < 9 && v >= 128 {
      assert v / 128 < Room(i + 1);
      VarintRoundTripAt(v / 128, rest, i + 1);
      assert (AppendVarint(v) + rest)[1..] == AppendVarint(v / 128) + rest;
    }
  }

  /** Reading undoes writing, whatever follows. */
  lemma VarintRoundTrip(v: nat, rest: seq<Byte>)
    requires v < UINT64_VALUES
    ensures ConsumeVarint(AppendVarint(v) + rest) == Read(v, |AppendVarint(v)|)
  {
    assert Room(0) == UINT64_VALUES;
    VarintRoundTripAt(v, rest, 0);
  }

  lemma {:induction false} VarintStays(a: seq<Byte>, more: seq<Byte>, i: nat)
    requires i <= 9 && ConsumeVarintAt(a, i).Read?
    ensures ConsumeVarintAt(a + more, i) == ConsumeVarintAt(a, i)
    decreases 9 - i
  {
    if i < 9 && a[0] >= 128 {
      VarintStays(a[1..], more, i + 1);
      assert (a + more)[1..] == a[1..] + more;
    }
  }

  lemma VarintCutShort(v: nat, k: nat)
    requires v < UINT64_VALUES && k < |AppendVarint(v)|
    ensures ConsumeVarint(AppendVarint(v)[..k]).Bad?
  {
    var all := AppendVarint(v);
    VarintRoundTrip(v, []);
    assert all + [] == all && all[..k] + all[k..] == all;
    if ConsumeVarint(all[..k]).Read? {
      VarintStays(all[..k], all[k..], 0);
    }
  }

  // ---------- Tags ----------

  datatype Tag = Tag(num: nat, typ: nat)

  const VARINT := 0
  const FIXED64 := 1
  const BYTES := 2
  const START_GROUP := 3
  const END_GROUP := 4
  const FIXED32 := 5

  const MAX_INT32 := 0x7fff_ffff
  const MAX_INT64 := 0x7fff_ffff_ffff_ffff

  function ConsumeTag(b: seq<Byte>): (r: Read<Tag>)
    ensures r.Read? ==> 1 <= r.n <= |b| && 1 <= r.value.num <= MAX_INT32 && r.value.typ < 8
  {
    match ConsumeVarint(b)
    case Bad => Bad
    case Read(v, n) => if 1 <= v / 8 <= MAX_INT32 then Read(Tag(v / 8, v % 8), n) else Bad
  }

  function AppendTag(num: nat, typ: nat): seq<Byte>
  {
    AppendVarint(num * 8 + typ)
  }

  lemma TagRoundTrip(num: nat, typ: nat, rest: seq<Byte>)
    requires 1 <= num <= MAX_INT32 && typ < 8
    ensures ConsumeTag(AppendTag(num, typ) + rest) == Read(Tag(num, typ), |AppendTag(num, typ)|)
  {
    VarintRoundTrip(num * 8 + typ, rest);
  }

  lemma TagStays(a: seq<Byte>, more: seq<Byte>)
    requires ConsumeTag(a).Read?
    ensures ConsumeTag(a + more) == ConsumeTag(a)
  {
    VarintStays(a, more, 0);
  }

  // ---------- Length-prefixed bytes ----------

  function ConsumeBytes(b: seq<Byte>): (r: Read<seq<Byte>>)
    ensures r.Read? ==> 1 <= r.n <= |b|
  {
    match ConsumeVarint(b)
    case Bad => Bad
    case Read(m, n) => if m <= |b| - n then Read(b[n..n + m], n + m) else Bad
  }

  function AppendBytes(v: seq<Byte>): seq<Byte>
  {
    AppendVarint(|v|) + v
  }

  lemma BytesRoundTrip(v: seq<Byte>, rest: seq<Byte>)
    requires |v| < UINT64_VALUES
    ensures ConsumeBytes(AppendBytes(v) + rest) == Read(v, |AppendBytes(v)|)
  {
    VarintRoundTrip(|v|, v + rest);
    var b, n := AppendBytes(v) + rest, |AppendVarint(|v|)|;
    assert b == AppendVarint(|v|) + (v + rest);
    assert b[n..n + |v|] == v;
  }

  lemma BytesStay(a: seq<Byte>, more: seq<Byte>)
    requires ConsumeBytes(a).Read?
    ensures ConsumeBytes(a + more) == ConsumeBytes(a)
  {
    VarintStays(a, more, 0);
    var r := ConsumeVarint(a);
    assert (a + more)[r.n..r.n + r.value] == a[r.n..r.n + r.value];
  }

  /** Length-prefixed bytes that are cut short are not read at all. */
  lemma BytesCutShort(v: seq<Byte>, k: nat)
    requires |v| < UINT64_VALUES && k < |AppendBytes(v)|
    ensures ConsumeBytes(AppendBytes(v)[..k]).Bad?
  {
    var all := AppendBytes(v);
    BytesRoundTrip(v, []);
    assert all + [] == all && all[..k] + all[k..] == all;
    if ConsumeBytes(all[..k]).Read? {
      BytesStay(all[..k], all[k..]);
    }
  }

  // ---------- Values of any type ----------

  const RECURSION_LIMIT := 10000

  function Fixed(b: seq<Byte>, size: nat): Read<()>
  {
    if |b| < size then Bad else Read((), size)
  }

  /** Skips a value: groups nest, each to its own end tag, up to a depth. */
  function ConsumeValue(num: nat, typ: nat, b: seq<Byte>, depth: int): (r: Read<()>)
    ensures r.Read? ==> r.n <= |b|
    decreases |b|, 1
  {
    if typ == VARINT then (match ConsumeVarint(b) case Bad => Bad case Read(_, n) => Read((), n))
    else if typ == FIXED32 then Fixed(b, 4)
    else if typ == FIXED64 then Fixed(b, 8)
    else if typ == BYTES then (match ConsumeBytes(b) case Bad => Bad case Read(_, n) => Read((), n))
    else if typ == START_GROUP && depth >= 0 then ConsumeGroup(num, b, depth)
    else Bad
  }

  function ConsumeGroup(num: nat, b: seq<Byte>, depth: int): (r: Read<()>)
    ensures r.Read? ==> 1 <= r.n <= |b|
    decreases |b|, 0
  {
    match ConsumeTag(b)
    case Bad => Bad
    case Read(tag, n) =>
      match ConsumeAfterTag(num, tag, b[n..], depth)
      case Bad => Bad
      case Read(_, m) => Read((), n + m)
  }

  /** The rest of a group after one of its tags: nothing more after its own end tag, else a value and so on. */
  function ConsumeAfterTag(num: nat, tag: Tag, b: seq<Byte>, depth: int): (r: Read<()>)
    ensures r.Read? ==> r.n <= |b|
    decreases |b|, 2
  {
    if tag.typ == END_GROUP then (if tag.num == num then Read((), 0) else Bad)
    else match ConsumeValue(tag.num, tag.typ, b, depth - 1)
      case Bad => Bad
      case Read(_, n) =>
        match ConsumeGroup(num, b[n..], depth)
        case Bad => Bad
        case Read(_, m) => Read((), n + m)
  }

  function ConsumeFieldValue(num: nat, typ: nat, b: seq<Byte>): (r: Read<()>)
    ensures r.Read? ==> r.n <= |b|
  {
    ConsumeValue(num, typ, b, RECURSION_LIMIT)
  }

  /** What follows a value does not change how it is skipped. */
  lemma {:induction false} ValueStays(num: nat, typ: nat, a: seq<Byte>, more: seq<Byte>, depth: int)
    requires ConsumeValue(num, typ, a, depth).Read?
    ensures ConsumeValue(num, typ, a + more, depth) == ConsumeValue(num, typ, a, depth)
    decreases |a|, 1
  {
    if typ == VARINT {
      VarintStays(a, more, 0);
    } else if typ == BYTES {
      BytesStay(a, more);
    } else if typ == START_GROUP {
      GroupStays(num, a, more, depth);
    }
  }

  lemma {:induction false} GroupStays(num: nat, a: seq<Byte>, more: seq<Byte>, depth: int)
    requires ConsumeGroup(num, a, depth).Read?
    ensures ConsumeGroup(num, a + more, depth) == ConsumeGroup(num, a, depth)
    decreases |a|, 0
  {
    TagStays(a, more);
    var tag := ConsumeTag(a);
    DropConcat(a, more, tag.n);
    AfterTagStays(num, tag.value, a[tag.n..], more, depth);
  }

  lemma {:induction false} AfterTagStays(num: nat, tag: Tag, a: seq<Byte>, more: seq<Byte>, depth: int)
    requires ConsumeAfterTag(num, tag, a, depth).Read?
    ensures ConsumeAfterTag(num, tag, a + more, depth) == ConsumeAfterTag(num, tag, a, depth)
    decreases |a|, 2
  {
    if tag.typ != END_GROUP {
      ValueStays(tag.num, tag.typ, a, more, depth - 1);
      var n := ConsumeValue(tag.num, tag.typ, a, depth - 1).n;
      DropConcat(a, more, n);
      GroupStays(num, a[n..], more, depth);
    }
  }

  lemma DropConcat<T>(a: seq<T>, more: seq<T>, n: nat)
    requires n <= |a|
    ensures (a + more)[n..] == a[n..] + more
  {
  }
}
