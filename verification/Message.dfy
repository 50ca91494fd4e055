/** Canonical tag-length-value messages: encoding sorts and refuses duplicates, decoding accepts
    only strictly ascending tags, so each message has exactly one byte form. */
module Messages {
  import opened Bytes
  import opened Results
  import opened Utf8
  import opened Codec

  const MAX_FIELDS := 48
  const MAX_KNOWN_TAG := 120

  datatype FieldType = U8 | U16 | U32 | U64 | Bool | Text | Bytes | Block {
    function Code(): (c: nat)
      ensures 1 <= c <= 8
    {
      match this
      case U8 => 1
      case U16 => 2
      case U32 => 3
      case U64 => 4
      case Bool => 5
      case Text => 6
      case Bytes => 7
      case Block => 8
    }

    /** The exact value width of a fixed-width type, 0 for the variable ones. */
    function FixedWidth(): nat {
      match this
      case U8 => 1
      case Bool => 1
      case U16 => 2
      case U32 => 4
      case U64 => 8
      case _ => 0
    }
  }

  function TypeOfCode(c: nat): (t: FieldType)
    requires 1 <= c <= 8
    ensures t.Code() == c
  {
    if c == 1 then U8 else if c == 2 then U16 else if c == 3 then U32 else if c == 4 then U64
    else if c == 5 then Bool else if c == 6 then Text else if c == 7 then Bytes else Block
  }

  datatype Field = Field(tag: nat, kind: FieldType, value: bytes)

  // ---------------------------------------------------------------------------
  // Fields in tag order
  // ---------------------------------------------------------------------------

  predicate Ascending(fields: seq<Field>) {
    forall i, j :: 0 <= i < j < |fields| ==> fields[i].tag <= fields[j].tag
  }

  predicate StrictlyAscending(fields: seq<Field>) {
    forall i, j :: 0 <= i < j < |fields| ==> fields[i].tag < fields[j].tag
  }

  predicate DistinctTags(fields: seq<Field>) {
    forall i, j :: 0 <= i < j < |fields| ==> fields[i].tag != fields[j].tag
  }

  function InsertByTag(f: Field, fields: seq<Field>): seq<Field>
    decreases |fields|
  {
    if fields == [] || f.tag <= fields[0].tag then [f] + fields
    else [fields[0]] + InsertByTag(f, fields[1..])
  }

  function SortByTag(fields: seq<Field>): seq<Field>
    decreases |fields|
  {
    if fields == [] then [] else InsertByTag(fields[0], SortByTag(fields[1..]))
  }

  lemma {:induction false} InsertMembers(f: Field, fields: seq<Field>)
    ensures multiset(InsertByTag(f, fields)) == multiset{f} + multiset(fields)
    decreases |fields|
  {
    if fields != [] {
      InsertMembers(f, fields[1..]);
      assert fields == [fields[0]] + fields[1..];
    }
  }

  lemma {:induction false} InsertSorts(f: Field, fields: seq<Field>)
    requires Ascending(fields)
    ensures Ascending(InsertByTag(f, fields))
    decreases |fields|
  {
    if fields != [] && f.tag > fields[0].tag {
      var rest := InsertByTag(f, fields[1..]);
      InsertSorts(f, fields[1..]);
      InsertMembers(f, fields[1..]);
      forall i | 0 <= i < |rest| ensures fields[0].tag <= rest[i].tag {
        assert rest[i] in multiset(rest);
        assert rest[i] == f || rest[i] in fields[1..];
      }
    }
  }

  lemma {:induction false} SortSorts(fields: seq<Field>)
    ensures Ascending(SortByTag(fields))
    ensures multiset(SortByTag(fields)) == multiset(fields)
    decreases |fields|
  {
    if fields != [] {
      SortSorts(fields[1..]);
      InsertSorts(fields[0], SortByTag(fields[1..]));
      InsertMembers(fields[0], SortByTag(fields[1..]));
      assert fields == [fields[0]] + fields[1..];
    }
  }

  lemma SameMembers(a: seq<Field>, b: seq<Field>)
    requires multiset(a) == multiset(b)
    ensures |a| == |b| && forall f :: f in a <==> f in b
  {
    assert |multiset(a)| == |multiset(b)|;
    forall f ensures f in a <==> f in b {
      assert f in a <==> f in multiset(a);
      assert f in b <==> f in multiset(b);
    }
  }

  /** A list in strict tag order is the only one with its members. */
  lemma {:induction false} StrictOrderUnique(a: seq<Field>, b: seq<Field>)
    requires StrictlyAscending(a) && StrictlyAscending(b) && |a| == |b|
    requires forall f :: f in a <==> f in b
    ensures a == b
    decreases |a|
  {
    if a != [] {
      assert a[0] in b;
      assert b[0] in a;
      assert a[0] == b[0];
      forall f ensures f in a[1..] <==> f in b[1..] {
        assert f in a[1..] ==> f in a && f != a[0];
        assert f in b[1..] ==> f in b && f != b[0];
        assert f in a && f != a[0] ==> f in a[1..];
        assert f in b && f != b[0] ==> f in b[1..];
      }
      StrictOrderUnique(a[1..], b[1..]);
      assert a == [a[0]] + a[1..] && b == [b[0]] + b[1..];
    }
  }

  // ---------------------------------------------------------------------------
  // One field
  // ---------------------------------------------------------------------------

  /** The encoder's checks on one field, in order. */
  function FieldError(f: Field): ErrorCode {
    if f.tag == 0 || f.tag > MAX_KNOWN_TAG then UNKNOWN_FIELD
    else if f.kind.FixedWidth() != 0 && |f.value| != f.kind.FixedWidth() then BAD_ENCODING
    else if |f.value| > MAX_PAYLOAD_BYTES then TOO_LARGE
    else if f.kind == Text then TextError(f.value, MAX_STRING_BYTES)
    else OK
  }

  /** A Bool field holds 0 or 1, as the typed setter writes it. */
  predicate BoolCanonical(f: Field) {
    f.kind == Bool && |f.value| == 1 ==> f.value[0] <= 1
  }

  /** The narrowing cast of a value size to its 16-bit length prefix. */
  function Narrow16(size: nat): nat {
    size % U16_LIMIT
  }

  function PutField(f: Field, rest: bytes): (r: bytes)
    ensures |r| == 5 + |f.value| + |rest|
  {
    PutU16(f.tag, PutU8(f.kind.Code(), PutU16(Narrow16(|f.value|), f.value + rest)))
  }

  function GetField(previousTag: nat, b: bytes): Read<Field> {
    var (tag, b1) :- GetU16(b);
    if tag == 0 || tag > MAX_KNOWN_TAG then Bad(UNKNOWN_FIELD)
    else if tag <= previousTag then Bad(FIELD_ORDER_VIOLATION) else
    var (code, b2) :- GetU8(b1);
    if code < 1 || code > 8 then Bad(BAD_ENCODING) else
    var kind := TypeOfCode(code);
    var (length, b3) :- GetU16(b2);
    if kind.FixedWidth() != 0 && length != kind.FixedWidth() then Bad(BAD_ENCODING)
    else if kind == Text && length > MAX_STRING_BYTES then Bad(TOO_LARGE) else
    var (value, b4) :- GetBytes(length, b3);
    if kind == Text && TextError(value, MAX_STRING_BYTES) != OK then Bad(TextError(value, MAX_STRING_BYTES))
    else if kind == Bool && |value| == 1 && value[0] > 1 then Bad(BAD_ENCODING)
    else Got(Field(tag, kind, value), b4)
  }

  lemma CodeRoundTrip(t: FieldType)
    ensures TypeOfCode(t.Code()) == t
  {}

  lemma FieldRoundTrip(f: Field, previousTag: nat, rest: bytes)
    requires FieldError(f) == OK && BoolCanonical(f) && previousTag < f.tag
    requires |f.value| < U16_LIMIT
    ensures GetField(previousTag, PutField(f, rest)) == Got(f, rest)
  {
    hide Little, FromLittle, GetUnsigned, PutUnsigned;
    CodeRoundTrip(f.kind);
    assert (f.value + rest)[..|f.value|] == f.value && (f.value + rest)[|f.value|..] == rest;
  }

  lemma FieldCanonical(previousTag: nat, b: bytes)
    requires GetField(previousTag, b).Got?
    ensures var f := GetField(previousTag, b).value;
      && FieldError(f) == OK && BoolCanonical(f) && previousTag < f.tag && |f.value| < U16_LIMIT
      && b == PutField(f, GetField(previousTag, b).rest)
  {
    hide Little, FromLittle, TextError, GetUnsigned;
    var (tag, b1) := GetU16(b).Extract();
    var (code, b2) := GetU8(b1).Extract();
    var (length, b3) := GetU16(b2).Extract();
    var (value, b4) := GetBytes(length, b3).Extract();
    assert b3 == value + b4;
    assert b2 == Little(length, 2) + b3;
    assert b1 == Little(code, 1) + b2;
    assert b == Little(tag, 2) + b1;
  }

  // ---------------------------------------------------------------------------
  // Whole messages
  // ---------------------------------------------------------------------------

  function PutFields(fields: seq<Field>): bytes
    decreases |fields|
  {
    if fields == [] then [] else PutField(fields[0], PutFields(fields[1..]))
  }

  function GetFields(count: nat, previousTag: nat, b: bytes): Read<seq<Field>>
    decreases count
  {
    if count == 0 then Got([], b)
    else
      var (f, b1) :- GetField(previousTag, b);
      var (others, b2) :- GetFields(count - 1, f.tag, b1);
      Got([f] + others, b2)
  }

  /** The first field check that fails, in encoding order. */
  function FirstError(fields: seq<Field>): ErrorCode
    decreases |fields|
  {
    if fields == [] then OK
    else if FieldError(fields[0]) != OK then FieldError(fields[0])
    else FirstError(fields[1..])
  }

  function PutMessage(ordered: seq<Field>): bytes {
    PutU16(Narrow16(|ordered|), PutFields(ordered))
  }

  /** `kind` is the message type's wire value; 0 is the invalid type. */
  function EncodeMessage(kind: nat, fields: seq<Field>): Result<bytes> {
    var ordered := SortByTag(fields);
    if kind == 0 then Failure(BAD_ENCODING)
    else if !DistinctTags(ordered) then Failure(DUPLICATE_FIELD)
    else if |ordered| > MAX_FIELDS then Failure(TOO_MANY_FIELDS)
    else if FirstError(ordered) != OK then Failure(FirstError(ordered))
    else if |PutMessage(ordered)| > MAX_PAYLOAD_BYTES then Failure(TOO_LARGE)
    else Success(PutMessage(ordered))
  }

  function DecodeMessage(kind: nat, payload: bytes): Result<seq<Field>> {
    if kind == 0 then Failure(BAD_ENCODING) else
    match GetU16(payload)
    case Bad(error) => Failure(error)
    case Got(count, b) =>
      if count > MAX_FIELDS then Failure(TOO_MANY_FIELDS) else
      match GetFields(count, 0, b)
      case Bad(error) => Failure(error)
      case Got(fields, rest) => if rest != [] then Failure(TRAILING_GARBAGE) else Success(fields)
  }

  lemma {:induction false} GetFieldsCanonical(count: nat, previousTag: nat, b: bytes)
    requires GetFields(count, previousTag, b) .Got? && GetFields(count, previousTag, b).rest == []
    ensures var fields := GetFields(count, previousTag, b).value;
      && |fields| == count && b == PutFields(fields) && FirstError(fields) == OK
      && StrictlyAscending(fields)
      && (forall f :: f in fields ==> BoolCanonical(f) && previousTag < f.tag)
    decreases count
  {
    hide GetField, PutField, FieldError, BoolCanonical;
    if count > 0 {
      FieldCanonical(previousTag, b);
      var (f, b1) := GetField(previousTag, b).Extract();
      GetFieldsCanonical(count - 1, f.tag, b1);
      var others := GetFields(count - 1, f.tag, b1).value;
      var fields := [f] + others;
      assert fields[1..] == others;
      assert forall i :: 0 < i < |fields| ==> fields[i] in others;
    }
  }

  lemma {:induction false} GetFieldsRoundTrip(fields: seq<Field>, previousTag: nat)
    requires StrictlyAscending(fields) && FirstError(fields) == OK
    requires forall f :: f in fields ==> BoolCanonical(f) && |f.value| < U16_LIMIT
    requires fields != [] ==> previousTag < fields[0].tag
    ensures GetFields(|fields|, previousTag, PutFields(fields)) == Got(fields, [])
    decreases |fields|
  {
    hide GetField, PutField, FieldError, BoolCanonical;
    if fields != [] {
      var f, others := fields[0], fields[1..];
      FieldRoundTrip(f, previousTag, PutFields(others));
      assert forall g :: g in others ==> g in fields;
      GetFieldsRoundTrip(others, f.tag);
      assert fields == [f] + others;
    }
  }

  lemma {:induction false} ValuesShort(fields: seq<Field>)
    ensures forall f :: f in fields ==> |f.value| + 5 <= |PutFields(fields)|
    decreases |fields|
  {
    if fields != [] {
      ValuesShort(fields[1..]);
      assert forall f :: f in fields ==> f == fields[0] || f in fields[1..];
    }
  }

  /** Sorting a strictly ascending list changes nothing. */
  lemma SortIdempotent(fields: seq<Field>)
    requires StrictlyAscending(fields)
    ensures SortByTag(fields) == fields
  {
    SortStrict(fields);
    SortSorts(fields);
    SameMembers(SortByTag(fields), fields);
    StrictOrderUnique(SortByTag(fields), fields);
  }

  lemma {:induction false} DistinctCounts(fields: seq<Field>)
    requires DistinctTags(fields)
    ensures forall f :: multiset(fields)[f] <= 1
    decreases |fields|
  {
    if fields != [] {
      DistinctCounts(fields[1..]);
      assert fields == [fields[0]] + fields[1..];
      assert fields[0] !in fields[1..];
    }
  }

  lemma RepeatCounts(fields: seq<Field>, i: nat, j: nat)
    requires i < j < |fields| && fields[i] == fields[j]
    ensures multiset(fields)[fields[i]] >= 2
  {
    assert fields == fields[..j] + fields[j..];
    assert fields[..j][i] == fields[i];
    assert fields[j..][0] == fields[i];
    assert multiset(fields) == multiset(fields[..j]) + multiset(fields[j..]);
  }

  lemma DistinctIsPermutationInvariant(a: seq<Field>, b: seq<Field>)
    requires multiset(a) == multiset(b) && DistinctTags(a)
    ensures DistinctTags(b)
  {
    SameMembers(a, b);
    DistinctCounts(a);
    forall i, j | 0 <= i < j < |b| ensures b[i].tag != b[j].tag {
      if b[i].tag == b[j].tag {
        assert b[i] in a && b[j] in a;
        RepeatCounts(b, i, j);
      }
    }
  }

  /** Sorting distinct tags gives strict order. */
  lemma SortStrict(fields: seq<Field>)
    requires DistinctTags(fields)
    ensures StrictlyAscending(SortByTag(fields))
  {
    SortSorts(fields);
    DistinctIsPermutationInvariant(fields, SortByTag(fields));
  }

  /** Canonical: whatever decoding accepts is the encoding of what it decoded to. */
  lemma EncodeDecoded(kind: nat, payload: bytes)
    requires |payload| <= MAX_PAYLOAD_BYTES && DecodeMessage(kind, payload).Success?
    ensures EncodeMessage(kind, DecodeMessage(kind, payload).value) == Success(payload)
    ensures StrictlyAscending(DecodeMessage(kind, payload).value)
  {
    hide GetFields, PutFields, SortByTag, FirstError;
    var (count, b) := GetU16(payload).Extract();
    var fields := DecodeMessage(kind, payload).value;
    GetFieldsCanonical(count, 0, b);
    SortIdempotent(fields);
    assert payload == Little(count, 2) + b;
  }

  /** What encoding accepts decodes to the same fields in ascending tag order, exactly when
      every Bool value is 0 or 1. No length prefix was truncated. */
  lemma DecodeEncoded(kind: nat, fields: seq<Field>)
    requires EncodeMessage(kind, fields).Success?
    ensures (forall f :: f in fields ==> |f.value| < U16_LIMIT && Narrow16(|f.value|) == |f.value|)
    ensures DecodeMessage(kind, EncodeMessage(kind, fields).value) == Success(SortByTag(fields))
       <==> forall f :: f in fields ==> BoolCanonical(f)
    ensures StrictlyAscending(SortByTag(fields)) && multiset(SortByTag(fields)) == multiset(fields)
  {
    hide GetFields, PutFields, SortByTag, FirstError;
    var ordered := SortByTag(fields);
    SortSorts(fields);
    SameMembers(ordered, fields);
    ValuesShort(ordered);
    assert StrictlyAscending(ordered);
    if forall f :: f in fields ==> BoolCanonical(f) {
      if ordered != [] {
        FirstTagPositive(ordered);
      }
      GetFieldsRoundTrip(ordered, 0);
    }
    if DecodeMessage(kind, EncodeMessage(kind, fields).value) == Success(ordered) {
      var (count, b) := GetU16(EncodeMessage(kind, fields).value).Extract();
      GetFieldsCanonical(count, 0, b);
    }
  }

  lemma FirstTagPositive(fields: seq<Field>)
    requires FirstError(fields) == OK && fields != []
    ensures fields[0].tag > 0
  {}

  /** Encoding depends only on which fields were set, not on the order they were set in. */
  lemma OrderIndependent(kind: nat, a: seq<Field>, b: seq<Field>)
    requires multiset(a) == multiset(b)
    ensures EncodeMessage(kind, a) == EncodeMessage(kind, b)
  {
    SortSorts(a);
    SortSorts(b);
    var p, q := SortByTag(a), SortByTag(b);
    if DistinctTags(p) {
      DistinctIsPermutationInvariant(p, q);
      SameMembers(p, q);
      StrictOrderUnique(p, q);
    } else if DistinctTags(q) {
      DistinctIsPermutationInvariant(q, p);
    }
  }

  // ---------------------------------------------------------------------------
  // The program's message object
  // ---------------------------------------------------------------------------

  class Message {
    const kind: nat
    var fields: seq<Field>

    /** Only the typed setters and decoding add fields. */
    ghost predicate Valid()
      reads this
    {
      && kind < U16_LIMIT
      && forall f :: f in fields ==> BoolCanonical(f) && f.tag < U16_LIMIT
    }

    constructor (kind: nat)
      requires kind < U16_LIMIT
      ensures Valid() && this.kind == kind && fields == []
    {
      this.kind := kind;
      fields := [];
    }

    method SetUnsigned(tag: nat, kind: FieldType, v: nat)
      requires Valid() && tag < U16_LIMIT && kind in {U8, U16, U32, U64} && Fits(v, kind.FixedWidth())
      modifies this
      ensures Valid() && fields == old(fields) + [Field(tag, kind, Little(v, kind.FixedWidth()))]
    {
      fields := fields + [Field(tag, kind, Little(v, kind.FixedWidth()))];
    }

    method SetBool(tag: nat, v: bool)
      requires Valid() && tag < U16_LIMIT
      modifies this
      ensures Valid() && fields == old(fields) + [Field(tag, Bool, [if v then 1 else 0])]
    {
      fields := fields + [Field(tag, Bool, [if v then 1 else 0])];
    }

    method SetBytes(tag: nat, kind: FieldType, v: bytes)
      requires Valid() && tag < U16_LIMIT && kind in {Text, Bytes, Block}
      modifies this
      ensures Valid() && fields == old(fields) + [Field(tag, kind, v)]
    {
      fields := fields + [Field(tag, kind, v)];
    }

    method Encode() returns (r: Result<bytes>)
      requires Valid()
      ensures r == EncodeMessage(kind, fields)
    {
      if kind == 0 {
        return Failure(BAD_ENCODING);
      }
      var ordered := Sorted(fields);
      var i := 1;
      while i < |ordered|
        invariant 1 <= i
        invariant forall j, k :: 0 <= j < k < i && k < |ordered| ==> ordered[j].tag != ordered[k].tag
      {
        if ordered[i - 1].tag == ordered[i].tag {
          return Failure(DUPLICATE_FIELD);
        }
        SortSorts(fields);
        i := i + 1;
      }
      if |ordered| > MAX_FIELDS {
        return Failure(TOO_MANY_FIELDS);
      }
      SortSorts(fields);
      SameMembers(ordered, fields);
      r := Write(ordered);
    }
  }

  /** Insertion sort by tag. */
  method Sorted(fields: seq<Field>) returns (ordered: seq<Field>)
    ensures ordered == SortByTag(fields)
  {
    ordered := [];
    var i := |fields|;
    while i > 0
      invariant 0 <= i <= |fields|
      invariant ordered == SortByTag(fields[i..])
    {
      i := i - 1;
      assert fields[i..][0] == fields[i] && fields[i..][1..] == fields[i + 1..];
      ordered := InsertByTag(fields[i], ordered);
    }
    assert fields[0..] == fields;
  }

  /** The write loop: field checks interrupt it, the writer's limit is noticed at the end. */
  method Write(ordered: seq<Field>) returns (r: Result<bytes>)
    requires |ordered| <= MAX_FIELDS && forall f :: f in ordered ==> f.tag < U16_LIMIT
    ensures r == if FirstError(ordered) != OK then Failure(FirstError(ordered))
                 else if |PutMessage(ordered)| > MAX_PAYLOAD_BYTES then Failure(TOO_LARGE)
                 else Success(PutMessage(ordered))
  {
    hide PutField, FieldError;
    Widths();
    var writer := new ByteWriter(MAX_PAYLOAD_BYTES);
    writer.PutUnsigned(|ordered|, 2);
    var i := 0;
    assert ordered[0..] == ordered;
    assert writer.buffer + PutFields(ordered) == PutMessage(ordered);
    while i < |ordered|
      invariant 0 <= i <= |ordered| && writer.Valid() && fresh(writer)
      invariant writer.limit == MAX_PAYLOAD_BYTES && writer.error in {OK, TOO_LARGE}
      invariant FirstError(ordered) == FirstError(ordered[i..])
      invariant writer.error == OK ==> writer.buffer + PutFields(ordered[i..]) == PutMessage(ordered)
      invariant writer.error != OK ==> |PutMessage(ordered)| > MAX_PAYLOAD_BYTES
    {
      var f := ordered[i];
      assert ordered[i..][0] == f && ordered[i..][1..] == ordered[i + 1..];
      var error := CheckField(f);
      if error != OK {
        return Failure(error);
      }
      ghost var before := writer.buffer;
      WriteField(writer, f, PutFields(ordered[i + 1..]));
      assert PutFields(ordered[i..]) == PutField(f, PutFields(ordered[i + 1..]));
      i := i + 1;
    }
    var status, buffer := writer.error, writer.buffer;
    assert buffer + [] == buffer;
    if status != OK {
      return Failure(status);
    }
    return Success(buffer);
  }

  method CheckField(f: Field) returns (error: ErrorCode)
    ensures error == FieldError(f)
  {
    if f.tag == 0 || f.tag > MAX_KNOWN_TAG {
      return UNKNOWN_FIELD;
    }
    var width := f.kind.FixedWidth();
    if width != 0 && |f.value| != width {
      return BAD_ENCODING;
    }
    if |f.value| > MAX_PAYLOAD_BYTES {
      return TOO_LARGE;
    }
    if f.kind == Text {
      error := TextError(f.value, MAX_STRING_BYTES);
      return;
    }
    return OK;
  }

  method WriteField(writer: ByteWriter, f: Field, ghost rest: bytes)
    requires writer.Valid() && f.tag < U16_LIMIT
    modifies writer
    ensures writer.Valid()
    ensures old(writer.error) != OK ==> writer.error == old(writer.error)
    ensures old(writer.error) == OK && writer.error == OK ==>
      writer.buffer + rest == old(writer.buffer) + PutField(f, rest)
    ensures old(writer.error) == OK && writer.error != OK ==>
      writer.error == TOO_LARGE && old(|writer.buffer|) + |PutField(f, rest)| > writer.limit
  {
    Widths();
    writer.PutUnsigned(f.tag, 2);
    writer.PutUnsigned(f.kind.Code(), 1);
    writer.PutUnsigned(Narrow16(|f.value|), 2);
    writer.PutBytes(f.value);
    FieldLayout(old(writer.buffer), f, rest);
  }

  lemma FieldLayout(before: bytes, f: Field, rest: bytes)
    ensures before + Little(f.tag, 2) + Little(f.kind.Code(), 1) + Little(Narrow16(|f.value|), 2) + f.value + rest
         == before + PutField(f, rest)
  {}

  method Decode(kind: nat, payload: bytes) returns (r: Result<seq<Field>>)
    ensures r == DecodeMessage(kind, payload)
  {
    if kind == 0 {
      return Failure(BAD_ENCODING);
    }
    hide GetFields, GetUnsigned;
    var reader := new ByteReader(payload);
    var count :- reader.Unsigned(2);
    assert GetU16(payload) == Got(count, reader.Remaining());
    if count > MAX_FIELDS {
      return Failure(TOO_MANY_FIELDS);
    }
    var fields :- ReadFields(reader, count);
    assert reader.offset == |payload| <==> reader.Remaining() == [];
    if reader.offset != |payload| {
      return Failure(TRAILING_GARBAGE);
    }
    return Success(fields);
  }

  method ReadFields(reader: ByteReader, count: nat) returns (r: Result<seq<Field>>)
    requires reader.Valid()
    modifies reader
    ensures reader.Valid() && reader.Outcome(r, GetFields(count, 0, old(reader.Remaining())))
  {
    hide GetField;
    var fields := [];
    var previousTag := 0;
    var i := 0;
    ghost var spec := GetFields(count, 0, reader.Remaining());
    PrependNothing(spec);
    while i < count
      invariant 0 <= i <= count && reader.Valid()
      invariant spec == Prepend(fields, GetFields(count - i, previousTag, reader.Remaining()))
    {
      ghost var before := reader.Remaining();
      var f :- ReadField(reader, previousTag);
      PrependOne(fields, f, GetFields(count - i - 1, f.tag, reader.Remaining()));
      previousTag := f.tag;
      fields := fields + [f];
      i := i + 1;
    }
    assert fields + [] == fields;
    return Success(fields);
  }

  lemma PrependNothing(r: Read<seq<Field>>)
    ensures Prepend([], r) == r
  {
    if r.Got? {
      assert [] + r.value == r.value;
    }
  }

  lemma PrependOne(fields: seq<Field>, f: Field, r: Read<seq<Field>>)
    ensures Prepend(fields, Prepend([f], r)) == Prepend(fields + [f], r)
  {
    if r.Got? {
      assert fields + ([f] + r.value) == fields + [f] + r.value;
    }
  }

  ghost function Prepend(fields: seq<Field>, r: Read<seq<Field>>): Read<seq<Field>> {
    match r
    case Got(others, rest) => Got(fields + others, rest)
    case Bad(error) => Bad(error)
  }

  method ReadField(reader: ByteReader, previousTag: nat) returns (r: Result<Field>)
    requires reader.Valid()
    modifies reader
    ensures reader.Valid() && reader.Outcome(r, GetField(previousTag, old(reader.Remaining())))
  {
    var tag :- reader.Unsigned(2);
    if tag == 0 || tag > MAX_KNOWN_TAG {
      return Failure(UNKNOWN_FIELD);
    }
    if tag <= previousTag {
      return Failure(FIELD_ORDER_VIOLATION);
    }
    Widths();
    var code :- reader.Unsigned(1);
    if code < 1 || code > 8 {
      return Failure(BAD_ENCODING);
    }
    var kind := TypeOfCode(code);
    var length :- reader.Unsigned(2);
    if kind.FixedWidth() != 0 && length != kind.FixedWidth() {
      return Failure(BAD_ENCODING);
    }
    if kind == Text && length > MAX_STRING_BYTES {
      return Failure(TOO_LARGE);
    }
    var value :- reader.Bytes(length);
    if kind == Text {
      var error := TextError(value, MAX_STRING_BYTES);
      if error != OK {
        return Failure(error);
      }
    }
    if kind == Bool && |value| == 1 && value[0] > 1 {
      return Failure(BAD_ENCODING);
    }
    return Success(Field(tag, kind, value));
  }
}
