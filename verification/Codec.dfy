/** The canonical byte codec: little-endian writers with a sticky error, and a bounded reader.
    The functions give the byte layout; the classes are the program's cursors over it. */
module Codec {
  import opened Bytes
  import opened Results
  import opened Utf8

  const MAX_STRING_BYTES := 256
  const MAX_PAYLOAD_BYTES := 65536
  const MAX_SNAPSHOT_BYTES := 8 * 1024 * 1024
  const MAX_COLLECTION_ITEMS := 4096

  const U8_LIMIT := 0x100
  const U16_LIMIT := 0x1_0000
  const U32_LIMIT := 0x1_0000_0000
  const U64_LIMIT := 0x1_0000_0000_0000_0000

  // ---------------------------------------------------------------------------
  // Layout
  // ---------------------------------------------------------------------------

  function Pow256(n: nat): (p: nat)
    ensures p >= 1
    decreases n
  {
    if n == 0 then 1 else 256 * Pow256(n - 1)
  }

  /** The low `n` bytes of `v`, least significant first. */
  function Little(v: nat, n: nat): (r: bytes)
    ensures |r| == n
  {
    seq(n, i requires 0 <= i < n => (v / Pow256(i)) % 256)
  }

  lemma LittleTail(v: nat, n: nat)
    requires n > 0
    ensures Little(v, n) == [v % 256] + Little(v / 256, n - 1)
  {
    forall i | 0 < i < n ensures Little(v, n)[i] == Little(v / 256, n - 1)[i - 1] {
      DivideTwice(v, 256, Pow256(i - 1));
    }
  }

  function FromLittle(b: bytes): (v: nat)
    ensures v < Pow256(|b|)
    decreases |b|
  {
    if b == [] then 0 else b[0] + 256 * FromLittle(b[1..])
  }

  lemma {:induction false} LittleRoundTrip(v: nat, n: nat)
    requires v < Pow256(n)
    ensures FromLittle(Little(v, n)) == v
    decreases n
  {
    if n > 0 {
      LittleRoundTrip(v / 256, n - 1);
      LittleTail(v, n);
      assert Little(v, n)[1..] == Little(v / 256, n - 1);
    }
  }

  lemma {:induction false} LittleCanonical(b: bytes)
    ensures Little(FromLittle(b), |b|) == b
    decreases |b|
  {
    if b != [] {
      var high := FromLittle(b[1..]);
      LittleCanonical(b[1..]);
      LittleTail(FromLittle(b), |b|);
      Digits(b[0], high);
      hide Little;
      assert b == [b[0]] + b[1..];
    }
  }

  lemma Digits(low: byte, high: nat)
    ensures (low + 256 * high) % 256 == low && (low + 256 * high) / 256 == high
  {}

  lemma Widths()
    ensures Pow256(1) == U8_LIMIT && Pow256(2) == U16_LIMIT
    ensures Pow256(4) == U32_LIMIT && Pow256(8) == U64_LIMIT
  {
    assert Pow256(3) == 0x100_0000 && Pow256(5) == 0x100_0000_0000;
    assert Pow256(6) == 0x1_0000_0000_0000 && Pow256(7) == 0x100_0000_0000_0000;
  }

  // ---------------------------------------------------------------------------
  // Reading from the front of a byte string
  // ---------------------------------------------------------------------------

  datatype Read<+T> = Got(value: T, rest: bytes) | Bad(error: ErrorCode) {
    predicate IsFailure() {
      Bad?
    }

    function PropagateFailure<U>(): Read<U>
      requires Bad?
    {
      Bad(error)
    }

    function Extract(): (T, bytes)
      requires Got?
    {
      (value, rest)
    }
  }

  function GetUnsigned(n: nat, b: bytes): (r: Read<nat>)
    ensures r.Got? ==> r.value < Pow256(n) && b == Little(r.value, n) + r.rest
    ensures r.Got? <==> n <= |b|
  {
    if |b| < n then Bad(TRUNCATED)
    else
      LittleCanonical(b[..n]);
      Got(FromLittle(b[..n]), b[n..])
  }

  function GetU8(b: bytes): (r: Read<nat>)
    ensures r.Got? ==> r.value < U8_LIMIT
  {
    Widths();
    GetUnsigned(1, b)
  }

  function GetU16(b: bytes): (r: Read<nat>)
    ensures r.Got? ==> r.value < U16_LIMIT
  {
    Widths();
    GetUnsigned(2, b)
  }

  function GetU32(b: bytes): (r: Read<nat>)
    ensures r.Got? ==> r.value < U32_LIMIT
  {
    Widths();
    GetUnsigned(4, b)
  }

  function GetU64(b: bytes): (r: Read<nat>)
    ensures r.Got? ==> r.value < U64_LIMIT
  {
    Widths();
    GetUnsigned(8, b)
  }

  function GetBool(b: bytes): Read<bool> {
    var (raw, b1) :- GetU8(b);
    if raw > 1 then Bad(BAD_ENCODING) else Got(raw == 1, b1)
  }

  function GetBytes(n: nat, b: bytes): Read<bytes> {
    if |b| < n then Bad(TRUNCATED) else Got(b[..n], b[n..])
  }

  function GetString(b: bytes): (r: Read<bytes>)
    ensures r.Got? ==> TextError(r.value, MAX_STRING_BYTES) == OK
  {
    var (length, b1) :- GetU32(b);
    if length > MAX_STRING_BYTES then Bad(TOO_LARGE) else
    var (text, b2) :- GetBytes(length, b1);
    if !Accepted(text) then Bad(INVALID_UTF8)
    else if 0 in text then Bad(INVALID_ARGUMENT)
    else Got(text, b2)
  }

  function GetCount(maxItems: nat, b: bytes): (r: Read<nat>)
    ensures r.Got? ==> r.value <= maxItems
  {
    var (value, b1) :- GetU32(b);
    if value > maxItems then Bad(TOO_LARGE) else Got(value, b1)
  }

  // ---------------------------------------------------------------------------
  // Writing in front of a byte string
  // ---------------------------------------------------------------------------

  /** A value representable in `n` bytes. */
  predicate Fits(v: nat, n: nat) {
    v < Pow256(n)
  }

  function PutUnsigned(v: nat, n: nat, rest: bytes): (r: bytes)
    ensures |r| == n + |rest|
    ensures Fits(v, n) ==> GetUnsigned(n, r) == Got(v, rest)
  {
    var r := Little(v, n) + rest;
    assert Fits(v, n) ==> GetUnsigned(n, r) == Got(v, rest) by {
      if Fits(v, n) {
        LittleRoundTrip(v, n);
        assert r[..n] == Little(v, n) && r[n..] == rest;
      }
    }
    r
  }

  function PutU8(v: nat, rest: bytes): (r: bytes)
    ensures v < U8_LIMIT ==> GetU8(r) == Got(v, rest)
  {
    Widths();
    PutUnsigned(v, 1, rest)
  }

  function PutU16(v: nat, rest: bytes): (r: bytes)
    ensures v < U16_LIMIT ==> GetU16(r) == Got(v, rest)
  {
    Widths();
    PutUnsigned(v, 2, rest)
  }

  function PutU32(v: nat, rest: bytes): (r: bytes)
    ensures v < U32_LIMIT ==> GetU32(r) == Got(v, rest)
  {
    Widths();
    PutUnsigned(v, 4, rest)
  }

  function PutU64(v: nat, rest: bytes): (r: bytes)
    ensures v < U64_LIMIT ==> GetU64(r) == Got(v, rest)
  {
    Widths();
    PutUnsigned(v, 8, rest)
  }

  function PutBool(v: bool, rest: bytes): (r: bytes)
    ensures GetBool(r) == Got(v, rest)
  {
    PutU8(if v then 1 else 0, rest)
  }

  function PutString(text: bytes, rest: bytes): (r: bytes)
    ensures TextError(text, MAX_STRING_BYTES) == OK ==> GetString(r) == Got(text, rest)
  {
    var r := PutU32(|text|, text + rest);
    assert (text + rest)[..|text|] == text && (text + rest)[|text|..] == rest;
    r
  }

  // ---------------------------------------------------------------------------
  // Cursors
  // ---------------------------------------------------------------------------

  /** Appends within a limit; the first overflow is remembered and stops every later write. */
  class ByteWriter {
    const limit: nat
    var buffer: bytes
    var error: ErrorCode

    ghost predicate Valid()
      reads this
    {
      |buffer| <= limit
    }

    constructor (limit: nat)
      ensures Valid() && this.limit == limit && buffer == [] && error == OK
    {
      this.limit := limit;
      buffer := [];
      error := OK;
    }

    /** The effect every write has: all of `chunk`, or nothing and a sticky error. */
    twostate predicate Appends(chunk: bytes)
      reads this
    {
      && (old(error) == OK && old(|buffer|) + |chunk| <= limit ==>
            error == OK && buffer == old(buffer) + chunk)
      && (old(error) == OK && old(|buffer|) + |chunk| > limit ==>
            error == TOO_LARGE && buffer == old(buffer))
      && (old(error) != OK ==> error == old(error) && buffer == old(buffer))
    }

    method PutBytes(chunk: bytes)
      requires Valid()
      modifies this
      ensures Valid() && Appends(chunk)
    {
      if error != OK {
        return;
      }
      if |chunk| > limit || |buffer| > limit - |chunk| {
        error := TOO_LARGE;
        return;
      }
      buffer := buffer + chunk;
    }

    method PutUnsigned(v: nat, width: nat)
      requires Valid() && Fits(v, width)
      modifies this
      ensures Valid() && Appends(Little(v, width))
    {
      PutBytes(Little(v, width));
    }

    /** What is still to be written is `tail`, on the way to `total`; or `total` is too large for the limit
        and the writer has already said so. */
    ghost predicate Pending(tail: bytes, total: bytes)
      reads this
    {
      || (error == OK && |buffer| <= limit && buffer + tail == total)
      || (error == TOO_LARGE && |total| > limit)
    }

    method Put(chunk: bytes)
      modifies this
      ensures forall tail, total :: old(Pending(chunk + tail, total)) ==> Pending(tail, total)
    {
      if error != OK {
        return;
      }
      if |chunk| > limit || |buffer| > limit - |chunk| {
        error := TOO_LARGE;
        return;
      }
      buffer := buffer + chunk;
      assert forall tail :: old(buffer) + (chunk + tail) == buffer + tail;
    }

    method U8(v: nat)
      requires v < U8_LIMIT
      modifies this
      ensures forall tail, total :: old(Pending(PutU8(v, tail), total)) ==> Pending(tail, total)
    {
      Put(Little(v, 1));
    }

    method U16(v: nat)
      requires v < U16_LIMIT
      modifies this
      ensures forall tail, total :: old(Pending(PutU16(v, tail), total)) ==> Pending(tail, total)
    {
      Put(Little(v, 2));
    }

    method U32(v: nat)
      requires v < U32_LIMIT
      modifies this
      ensures forall tail, total :: old(Pending(PutU32(v, tail), total)) ==> Pending(tail, total)
    {
      Put(Little(v, 4));
    }

    method U64(v: nat)
      requires v < U64_LIMIT
      modifies this
      ensures forall tail, total :: old(Pending(PutU64(v, tail), total)) ==> Pending(tail, total)
    {
      Put(Little(v, 8));
    }

    method Flag(v: bool)
      modifies this
      ensures forall tail, total :: old(Pending(PutBool(v, tail), total)) ==> Pending(tail, total)
    {
      U8(if v then 1 else 0);
    }

    method Text(text: bytes)
      modifies this
      ensures |text| > MAX_STRING_BYTES ==> error != OK
      ensures |text| <= MAX_STRING_BYTES ==>
        forall tail, total :: old(Pending(PutString(text, tail), total)) ==> Pending(tail, total)
    {
      if |text| > MAX_STRING_BYTES {
        if error == OK {
          error := TOO_LARGE;
        }
        return;
      }
      U32(|text|);
      Put(text);
    }
  }

  /** A bounded cursor. Each read returns what the matching function says of the remaining bytes. */
  class ByteReader {
    const data: bytes
    var offset: nat

    ghost predicate Valid()
      reads this
    {
      offset <= |data|
    }

    function Remaining(): bytes
      requires Valid()
      reads this
    {
      data[offset..]
    }

    constructor (data: bytes)
      ensures Valid() && this.data == data && Remaining() == data
    {
      this.data := data;
      offset := 0;
    }

    method Unsigned(width: nat) returns (r: Result<nat>)
      requires Valid()
      modifies this
      ensures Valid() && Outcome(r, GetUnsigned(width, old(Remaining())))
    {
      if |data| - offset < width {
        return Failure(TRUNCATED);
      }
      var value: nat, shift: nat, i: nat := 0, 1, 0;
      while i < width
        invariant 0 <= i <= width
        invariant offset == old(offset)
        invariant shift == Pow256(i)
        invariant value == FromLittle(data[offset..offset + i])
      {
        LittleSnoc(data[offset..offset + i], data[offset + i]);
        assert data[offset..offset + i + 1] == data[offset..offset + i] + [data[offset + i]];
        value := value + data[offset + i] * shift;
        shift := shift * 256;
        i := i + 1;
      }
      assert old(Remaining())[..width] == data[offset..offset + width];
      assert old(Remaining())[width..] == data[offset + width..];
      offset := offset + width;
      return Success(value);
    }

    method Bytes(count: nat) returns (r: Result<bytes>)
      requires Valid()
      modifies this
      ensures Valid() && Outcome(r, GetBytes(count, old(Remaining())))
    {
      if |data| - offset < count {
        return Failure(TRUNCATED);
      }
      r := Success(data[offset..offset + count]);
      assert old(Remaining())[..count] == data[offset..offset + count];
      assert old(Remaining())[count..] == data[offset + count..];
      offset := offset + count;
    }

    method String() returns (r: Result<bytes>)
      requires Valid()
      modifies this
      ensures Valid() && Outcome(r, GetString(old(Remaining())))
    {
      Widths();
      var length :- Unsigned(4);
      if length > MAX_STRING_BYTES {
        return Failure(TOO_LARGE);
      }
      var text :- Bytes(length);
      var ok := IsValidUtf8(text);
      if !ok {
        return Failure(INVALID_UTF8);
      }
      if 0 in text {
        return Failure(INVALID_ARGUMENT);
      }
      return Success(text);
    }

    method U8() returns (r: Result<nat>)
      requires Valid()
      modifies this
      ensures Valid() && Outcome(r, GetU8(old(Remaining())))
    {
      Widths();
      r := Unsigned(1);
    }

    method U16() returns (r: Result<nat>)
      requires Valid()
      modifies this
      ensures Valid() && Outcome(r, GetU16(old(Remaining())))
    {
      Widths();
      r := Unsigned(2);
    }

    method U32() returns (r: Result<nat>)
      requires Valid()
      modifies this
      ensures Valid() && Outcome(r, GetU32(old(Remaining())))
    {
      Widths();
      r := Unsigned(4);
    }

    method U64() returns (r: Result<nat>)
      requires Valid()
      modifies this
      ensures Valid() && Outcome(r, GetU64(old(Remaining())))
    {
      Widths();
      r := Unsigned(8);
    }

    method Flag() returns (r: Result<bool>)
      requires Valid()
      modifies this
      ensures Valid() && Outcome(r, GetBool(old(Remaining())))
    {
      var raw :- U8();
      if raw > 1 {
        return Failure(BAD_ENCODING);
      }
      return Success(raw == 1);
    }

    method Count(maxItems: nat) returns (r: Result<nat>)
      requires Valid()
      modifies this
      ensures Valid() && Outcome(r, GetCount(maxItems, old(Remaining())))
    {
      var value :- U32();
      if value > maxItems {
        return Failure(TOO_LARGE);
      }
      return Success(value);
    }

    /** `r` and the new position are what `spec` computed from the old one. */
    ghost predicate Outcome<T>(r: Result<T>, spec: Read<T>)
      requires Valid()
      reads this
    {
      match spec
      case Got(value, rest) => r == Success(value) && Remaining() == rest
      case Bad(error) => r == Failure(error)
    }
  }

  lemma {:induction false} LittleSnoc(b: bytes, last: byte)
    ensures FromLittle(b + [last]) == FromLittle(b) + last * Pow256(|b|)
    decreases |b|
  {
    if b == [] {
      assert b + [last] == [last];
      assert [last][1..] == [];
    } else {
      assert (b + [last])[1..] == b[1..] + [last];
      LittleSnoc(b[1..], last);
      var p := Pow256(|b| - 1);
      assert last * (256 * p) == 256 * (last * p);
    }
  }
}
