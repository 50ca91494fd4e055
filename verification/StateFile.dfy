/** The durable state file: a checksummed header, the snapshot payload and an end marker. */
module StateFile {
  import opened Bytes
  import opened Results
  import opened Codec
  import opened Crc32c
  import opened Integrity

  const FILE_MAGIC := 0x50465454
  const FILE_END := 0x45465454
  const FILE_FORMAT := 1
  const FILE_HEADER_BYTES := 36

  datatype Stored = Stored(epoch: nat, sequence: nat, payload: bytes) {
    predicate InRange() {
      epoch < U64_LIMIT && sequence < U64_LIMIT
    }
  }

  /** The thirty-two bytes the header checksum covers. */
  function FileHeader(s: Stored): (r: bytes)
    ensures |r| == 32
  {
    Little(FILE_MAGIC, 4) + Little(FILE_FORMAT, 2) + Little(0, 2) + Little(s.epoch, 8)
    + Little(s.sequence, 8) + Little(|s.payload|, 4) + Little(CrcValue(s.payload), 4)
  }

  function FileBytes(s: Stored): (r: bytes)
    ensures |r| == FILE_HEADER_BYTES + |s.payload| + 4
  {
    var header := FileHeader(s);
    header + Little(CrcValue(header), 4) + s.payload + Little(FILE_END, 4)
  }

  function EncodeFile(s: Stored): Result<bytes> {
    if |s.payload| > MAX_SNAPSHOT_BYTES then Failure(STATE_TOO_LARGE) else Success(FileBytes(s))
  }

  /** The header fields, in order, into an empty writer with room for them. */
  method WriteHeader(writer: ByteWriter, s: Stored)
    requires writer.Valid() && writer.buffer == [] && writer.error == OK && writer.limit >= FILE_HEADER_BYTES
    requires s.InRange() && |s.payload| <= MAX_SNAPSHOT_BYTES
    modifies writer
    ensures writer.Valid() && writer.error == OK && writer.buffer == FileHeader(s)
  {
    hide CrcValue;
    Widths();
    writer.PutUnsigned(FILE_MAGIC, 4);
    assert writer.buffer == Little(FILE_MAGIC, 4);
    writer.PutUnsigned(FILE_FORMAT, 2);
    writer.PutUnsigned(0, 2);
    writer.PutUnsigned(s.epoch, 8);
    writer.PutUnsigned(s.sequence, 8);
    writer.PutUnsigned(|s.payload|, 4);
    writer.PutUnsigned(CrcValue(s.payload), 4);
  }

  method Encode(s: Stored) returns (r: Result<bytes>)
    requires s.InRange()
    ensures r == EncodeFile(s)
  {
    if |s.payload| > MAX_SNAPSHOT_BYTES {
      return Failure(STATE_TOO_LARGE);
    }
    hide CrcValue, FileHeader;
    Widths();
    var writer := new ByteWriter(|s.payload| + FILE_HEADER_BYTES + 8);
    WriteHeader(writer, s);
    var headerCrc := CrcValue(writer.buffer);
    writer.PutUnsigned(headerCrc, 4);
    writer.PutBytes(s.payload);
    writer.PutUnsigned(FILE_END, 4);
    var status, buffer := writer.error, writer.buffer;
    if status != OK {
      return Failure(status);
    }
    return Success(buffer);
  }

  function DecodeFile(b: bytes, maxPayload: nat): (r: Result<Stored>)
    ensures r.Success? ==> |b| == FILE_HEADER_BYTES + |r.value.payload| + 4
  {
    if |b| < FILE_HEADER_BYTES + 4 then Failure(PARTIAL_STATE)
    else if |b| > maxPayload + FILE_HEADER_BYTES + 8 then Failure(STATE_TOO_LARGE)
    else if At(b, 0, 4) != FILE_MAGIC then Failure(CORRUPT_STATE)
    else if At(b, 4, 2) != FILE_FORMAT then Failure(INCOMPATIBLE_STATE)
    else if At(b, 6, 2) != 0 then Failure(CORRUPT_STATE)
    else if CrcValue(b[0..32]) != At(b, 32, 4) then Failure(BAD_CHECKSUM)
    else
      var length := At(b, 24, 4);
      if length > maxPayload then Failure(STATE_TOO_LARGE)
      else if |b| < FILE_HEADER_BYTES + length + 4 then Failure(PARTIAL_STATE)
      else if |b| > FILE_HEADER_BYTES + length + 4 then Failure(TRAILING_GARBAGE)
      else
        var payload := b[FILE_HEADER_BYTES..FILE_HEADER_BYTES + length];
        if CrcValue(payload) != At(b, 28, 4) then Failure(BAD_CHECKSUM)
        else if At(b, FILE_HEADER_BYTES + length, 4) != FILE_END then Failure(CORRUPT_STATE)
        else Success(Stored(At(b, 8, 8), At(b, 16, 8), payload))
  }

  /** One field of a file long enough to hold it. */
  method Field(reader: ByteReader, width: nat) returns (v: nat)
    requires reader.Valid() && reader.offset + width <= |reader.data|
    modifies reader
    ensures reader.Valid() && reader.offset == old(reader.offset) + width
    ensures v == At(reader.data, old(reader.offset), width)
  {
    var b, offset := reader.data, reader.offset;
    assert b[offset..][..width] == b[offset..offset + width];
    var r := reader.Unsigned(width);
    return r.value;
  }

  /** The header fields: where the file was committed, and the length and checksum of its payload. */
  method DecodeHeader(reader: ByteReader) returns (r: Result<Stored>, length: nat, payloadCrc: nat)
    requires reader.Valid() && reader.offset == 0 && |reader.data| >= FILE_HEADER_BYTES
    modifies reader
    ensures var b := reader.data;
      r == if At(b, 0, 4) != FILE_MAGIC then Failure(CORRUPT_STATE)
           else if At(b, 4, 2) != FILE_FORMAT then Failure(INCOMPATIBLE_STATE)
           else if At(b, 6, 2) != 0 then Failure(CORRUPT_STATE)
           else if CrcValue(b[0..32]) != At(b, 32, 4) then Failure(BAD_CHECKSUM)
           else Success(Stored(At(b, 8, 8), At(b, 16, 8), []))
    ensures r.Success? ==>
      && reader.Valid() && reader.offset == FILE_HEADER_BYTES
      && length == At(reader.data, 24, 4) && payloadCrc == At(reader.data, 28, 4)
  {
    hide CrcValue, At;
    length, payloadCrc := 0, 0;
    var magic := Field(reader, 4);
    if magic != FILE_MAGIC {
      return Failure(CORRUPT_STATE), length, payloadCrc;
    }
    var format := Field(reader, 2);
    if format != FILE_FORMAT {
      return Failure(INCOMPATIBLE_STATE), length, payloadCrc;
    }
    var flags := Field(reader, 2);
    if flags != 0 {
      return Failure(CORRUPT_STATE), length, payloadCrc;
    }
    var epoch := Field(reader, 8);
    var sequence := Field(reader, 8);
    length := Field(reader, 4);
    payloadCrc := Field(reader, 4);
    var headerCrc := Field(reader, 4);
    var computed := CrcValue(reader.data[0..32]);
    if computed != headerCrc {
      return Failure(BAD_CHECKSUM), length, payloadCrc;
    }
    return Success(Stored(epoch, sequence, [])), length, payloadCrc;
  }

  /** The program's decoder: a cursor over the file, with each check where the field is read. */
  method Decode(b: bytes, maxPayload: nat) returns (r: Result<Stored>)
    ensures r == DecodeFile(b, maxPayload)
  {
    hide CrcValue, At;
    if |b| < FILE_HEADER_BYTES + 4 {
      return Failure(PARTIAL_STATE);
    }
    if |b| > maxPayload + FILE_HEADER_BYTES + 8 {
      return Failure(STATE_TOO_LARGE);
    }
    var reader := new ByteReader(b);
    var header, length, payloadCrc := DecodeHeader(reader);
    if header.Failure? {
      return header;
    }
    if length > maxPayload {
      return Failure(STATE_TOO_LARGE);
    }
    if |b| != FILE_HEADER_BYTES + length + 4 {
      return Failure(if |b| < FILE_HEADER_BYTES + length + 4 then PARTIAL_STATE else TRAILING_GARBAGE);
    }
    r := DecodeBody(reader, header.value, length, payloadCrc);
  }

  /** What follows a checked header, in a file of the right length. */
  method DecodeBody(reader: ByteReader, header: Stored, length: nat, payloadCrc: nat) returns (r: Result<Stored>)
    requires reader.Valid() && reader.offset == FILE_HEADER_BYTES
    requires |reader.data| == FILE_HEADER_BYTES + length + 4
    modifies reader
    ensures var payload := reader.data[FILE_HEADER_BYTES..FILE_HEADER_BYTES + length];
      r == if CrcValue(payload) != payloadCrc then Failure(BAD_CHECKSUM)
           else if At(reader.data, FILE_HEADER_BYTES + length, 4) != FILE_END then Failure(CORRUPT_STATE)
           else Success(header.(payload := payload))
  {
    hide CrcValue, At;
    var b := reader.data;
    var payload := reader.Bytes(length);
    assert b[FILE_HEADER_BYTES..][..length] == b[FILE_HEADER_BYTES..FILE_HEADER_BYTES + length];
    if CrcValue(payload.value) != payloadCrc {
      return Failure(BAD_CHECKSUM);
    }
    var end := Field(reader, 4);
    if end != FILE_END {
      return Failure(CORRUPT_STATE);
    }
    return Success(header.(payload := payload.value));
  }

  lemma FileHeaderReads(s: Stored)
    requires s.InRange() && |s.payload| < U32_LIMIT
    ensures var h := FileHeader(s);
      && At(h, 0, 4) == FILE_MAGIC && At(h, 4, 2) == FILE_FORMAT && At(h, 6, 2) == 0
      && At(h, 8, 8) == s.epoch && At(h, 16, 8) == s.sequence && At(h, 24, 4) == |s.payload|
      && At(h, 28, 4) == CrcValue(s.payload)
  {
    hide CrcValue;
    Widths();
    var h := FileHeader(s);
    assert h[0..4] == Little(FILE_MAGIC, 4);
    assert h[4..6] == Little(FILE_FORMAT, 2);
    assert h[6..8] == Little(0, 2);
    assert h[8..16] == Little(s.epoch, 8);
    assert h[16..24] == Little(s.sequence, 8);
    assert h[24..28] == Little(|s.payload|, 4);
    assert h[28..32] == Little(CrcValue(s.payload), 4);
    LittleRoundTrip(FILE_MAGIC, 4);
    LittleRoundTrip(FILE_FORMAT, 2);
    LittleRoundTrip(0, 2);
    LittleRoundTrip(s.epoch, 8);
    LittleRoundTrip(s.sequence, 8);
    LittleRoundTrip(|s.payload|, 4);
    LittleRoundTrip(CrcValue(s.payload), 4);
  }

  lemma FileParts(s: Stored)
    requires |s.payload| <= MAX_SNAPSHOT_BYTES
    ensures var b, n := FileBytes(s), |s.payload|;
      && b[0..32] == FileHeader(s) && b[36..36 + n] == s.payload
      && At(b, 32, 4) == CrcValue(FileHeader(s)) && At(b, 36 + n, 4) == FILE_END
  {
    hide CrcValue, FileHeader;
    Widths();
    var b, h, n := FileBytes(s), FileHeader(s), |s.payload|;
    LittleRoundTrip(CrcValue(h), 4);
    LittleRoundTrip(FILE_END, 4);
    assert b[32..36] == Little(CrcValue(h), 4);
    assert b[36 + n..40 + n] == Little(FILE_END, 4);
  }

  /** Decoding inverts encoding, under any accepted maximum. */
  lemma DecodeEncodedFile(s: Stored, maxPayload: nat)
    requires s.InRange() && |s.payload| <= MAX_SNAPSHOT_BYTES && |s.payload| <= maxPayload
    ensures DecodeFile(FileBytes(s), maxPayload) == Success(s)
  {
    hide CrcValue, FileHeader, FileBytes;
    var b, h := FileBytes(s), FileHeader(s);
    FileParts(s);
    FileHeaderReads(s);
    assert b[..32] == b[0..32];
    SliceAt(b, h, 0, 4);
    SliceAt(b, h, 4, 2);
    SliceAt(b, h, 6, 2);
    SliceAt(b, h, 8, 8);
    SliceAt(b, h, 16, 8);
    SliceAt(b, h, 24, 4);
    SliceAt(b, h, 28, 4);
  }

  /** Every one-byte corruption of an accepted file is refused. */
  lemma CorruptFileRefused(b: bytes, c: bytes, i: nat, maxPayload: nat)
    requires DecodeFile(b, maxPayload).Success? && ChangedAt(b, c, i)
    ensures DecodeFile(c, maxPayload).Failure?
  {
    hide CrcValue;
    var n := |DecodeFile(b, maxPayload).value.payload|;
    if i < FILE_HEADER_BYTES {
      ChangedBody(b, c, i, 0, 32);
    } else {
      ChangedSlice(b, c, i, 24, 28);
      ChangedSlice(b, c, i, 28, 32);
      if i < FILE_HEADER_BYTES + n {
        ChangedSlice(b, c, i, FILE_HEADER_BYTES, FILE_HEADER_BYTES + n);
        ChangedChecksum(b[36..36 + n], c[36..36 + n], i - FILE_HEADER_BYTES);
      } else {
        ChangedSlice(b, c, i, 36 + n, 40 + n);
        ChangedNumber(b[36 + n..40 + n], c[36 + n..40 + n], i - 36 - n);
      }
    }
  }

  /** A file cut short anywhere is refused: a torn write never reads as a state. */
  lemma TornFileRefused(s: Stored, k: nat, maxPayload: nat)
    requires s.InRange() && |s.payload| <= MAX_SNAPSHOT_BYTES && |s.payload| <= maxPayload
    requires k < |FileBytes(s)|
    ensures DecodeFile(FileBytes(s)[..k], maxPayload).Failure?
  {
    hide CrcValue, FileBytes;
    DecodeEncodedFile(s, maxPayload);
    var b := FileBytes(s);
    if k >= FILE_HEADER_BYTES {
      SliceAt(b, b[..k], 24, 4);
    }
  }
}
