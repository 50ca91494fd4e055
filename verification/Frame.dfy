/** Framing: a checksummed header, a bounded payload and its own checksum. */
module Frames {
  import opened Bytes
  import opened Results
  import opened Codec
  import opened Crc32c
  import opened Integrity

  const FRAME_MAGIC := 0x31465454
  const PROTOCOL_VERSION := 1
  const HEADER_BYTES := 44

  datatype Frame = Frame(kind: nat, flags: nat, session: nat, sequence: nat, nonce: nat, payload: bytes) {
    /** The field widths of the header. */
    predicate InRange() {
      kind < U16_LIMIT && flags < U32_LIMIT && session < U64_LIMIT && sequence < U64_LIMIT && nonce < U64_LIMIT
    }
  }

  function EncodedFrameSize(payloadLength: nat): nat {
    HEADER_BYTES + payloadLength + 4
  }

  // ---------------------------------------------------------------------------
  // Encoding
  // ---------------------------------------------------------------------------

  /** The forty bytes the header checksum covers. */
  function HeaderFields(f: Frame): (r: bytes)
    ensures |r| == 40
  {
    Little(FRAME_MAGIC, 4) + Little(PROTOCOL_VERSION, 2) + Little(f.kind, 2) + Little(f.flags, 4)
    + Little(f.session, 8) + Little(f.sequence, 8) + Little(f.nonce, 8) + Little(|f.payload|, 4)
  }

  function FrameBytes(f: Frame): (r: bytes)
    ensures |r| == EncodedFrameSize(|f.payload|)
  {
    var header := HeaderFields(f);
    header + Little(CrcValue(header), 4) + f.payload + Little(CrcValue(f.payload), 4)
  }

  function EncodeFrame(f: Frame): Result<bytes> {
    if |f.payload| > MAX_PAYLOAD_BYTES then Failure(TOO_LARGE) else Success(FrameBytes(f))
  }

  /** The program's encoder: a writer whose limit is the exact frame size. */
  method Encode(f: Frame) returns (r: Result<bytes>)
    requires f.InRange()
    ensures r == EncodeFrame(f)
  {
    if |f.payload| > MAX_PAYLOAD_BYTES {
      return Failure(TOO_LARGE);
    }
    var writer := new ByteWriter(EncodedFrameSize(|f.payload|));
    PutHeader(writer, f);
    var headerCrc := CrcValue(writer.buffer);
    Widths();
    writer.PutUnsigned(headerCrc, 4);
    writer.PutBytes(f.payload);
    writer.PutUnsigned(CrcValue(f.payload), 4);
    var status, buffer := writer.error, writer.buffer;
    if status != OK {
      return Failure(status);
    }
    return Success(buffer);
  }

  method PutHeader(writer: ByteWriter, f: Frame)
    requires f.InRange() && |f.payload| < U32_LIMIT
    requires writer.Valid() && writer.limit >= 40 && writer.buffer == [] && writer.error == OK
    modifies writer
    ensures writer.Valid() && writer.error == OK && writer.buffer == HeaderFields(f)
  {
    Widths();
    writer.PutUnsigned(FRAME_MAGIC, 4);
    assert writer.buffer == Little(FRAME_MAGIC, 4);
    writer.PutUnsigned(PROTOCOL_VERSION, 2);
    writer.PutUnsigned(f.kind, 2);
    writer.PutUnsigned(f.flags, 4);
    writer.PutUnsigned(f.session, 8);
    writer.PutUnsigned(f.sequence, 8);
    writer.PutUnsigned(f.nonce, 8);
    writer.PutUnsigned(|f.payload|, 4);
  }

  // ---------------------------------------------------------------------------
  // Decoding
  // ---------------------------------------------------------------------------

  /** Check a header and report how many payload bytes must follow. */
  function PayloadLength(header: bytes): (r: Result<nat>)
    ensures r.Success? ==> r.value <= MAX_PAYLOAD_BYTES
  {
    if |header| < HEADER_BYTES then Failure(TRUNCATED)
    else if At(header, 0, 4) != FRAME_MAGIC then Failure(BAD_MAGIC)
    else if At(header, 4, 2) != PROTOCOL_VERSION then Failure(UNSUPPORTED_PROTOCOL_VERSION)
    else if At(header, 40, 4) != CrcValue(header[..40]) then Failure(BAD_CHECKSUM)
    else if At(header, 36, 4) > MAX_PAYLOAD_BYTES then Failure(TOO_LARGE)
    else Success(At(header, 36, 4))
  }

  function DecodeFrame(b: bytes): (r: Result<Frame>)
    ensures r.Success? ==> |b| == EncodedFrameSize(|r.value.payload|)
  {
    if |b| < HEADER_BYTES then Failure(TRUNCATED) else
    var length :- PayloadLength(b[..HEADER_BYTES]);
    if |b| < EncodedFrameSize(length) then Failure(TRUNCATED)
    else if |b| > EncodedFrameSize(length) then Failure(TRAILING_GARBAGE)
    else
      var payload := b[HEADER_BYTES..HEADER_BYTES + length];
      if CrcValue(payload) != At(b, HEADER_BYTES + length, 4) then Failure(BAD_CHECKSUM)
      else Success(Frame(At(b, 6, 2), At(b, 8, 4), At(b, 12, 8), At(b, 20, 8), At(b, 28, 8), payload))
  }

  // ---------------------------------------------------------------------------
  // Round trips
  // ---------------------------------------------------------------------------

  lemma HeaderReads(f: Frame)
    requires f.InRange() && |f.payload| < U32_LIMIT
    ensures var h := HeaderFields(f);
      && At(h, 0, 4) == FRAME_MAGIC && At(h, 4, 2) == PROTOCOL_VERSION && At(h, 6, 2) == f.kind
      && At(h, 8, 4) == f.flags && At(h, 12, 8) == f.session && At(h, 20, 8) == f.sequence
      && At(h, 28, 8) == f.nonce && At(h, 36, 4) == |f.payload|
  {
    Widths();
    var h := HeaderFields(f);
    assert h[0..4] == Little(FRAME_MAGIC, 4);
    assert h[4..6] == Little(PROTOCOL_VERSION, 2);
    assert h[6..8] == Little(f.kind, 2);
    assert h[8..12] == Little(f.flags, 4);
    assert h[12..20] == Little(f.session, 8);
    assert h[20..28] == Little(f.sequence, 8);
    assert h[28..36] == Little(f.nonce, 8);
    assert h[36..40] == Little(|f.payload|, 4);
    LittleRoundTrip(FRAME_MAGIC, 4);
    LittleRoundTrip(PROTOCOL_VERSION, 2);
    LittleRoundTrip(f.kind, 2);
    LittleRoundTrip(f.flags, 4);
    LittleRoundTrip(f.session, 8);
    LittleRoundTrip(f.sequence, 8);
    LittleRoundTrip(f.nonce, 8);
    LittleRoundTrip(|f.payload|, 4);
  }

  lemma FrameParts(f: Frame)
    requires |f.payload| <= MAX_PAYLOAD_BYTES
    ensures var b, n := FrameBytes(f), |f.payload|;
      && b[..40] == HeaderFields(f) && b[44..44 + n] == f.payload
      && At(b, 40, 4) == CrcValue(HeaderFields(f)) && At(b, 44 + n, 4) == CrcValue(f.payload)
  {
    hide CrcValue;
    Widths();
    var b, h, n := FrameBytes(f), HeaderFields(f), |f.payload|;
    LittleRoundTrip(CrcValue(h), 4);
    LittleRoundTrip(CrcValue(f.payload), 4);
    assert b[40..44] == Little(CrcValue(h), 4);
    assert b[44 + n..48 + n] == Little(CrcValue(f.payload), 4);
  }

  /** Decoding inverts encoding. */
  lemma DecodeEncoded(f: Frame)
    requires f.InRange() && |f.payload| <= MAX_PAYLOAD_BYTES
    ensures DecodeFrame(FrameBytes(f)) == Success(f)
  {
    hide CrcValue, HeaderFields, FrameBytes;
    Widths();
    var b, h := FrameBytes(f), HeaderFields(f);
    FrameParts(f);
    HeaderReads(f);
    var front := b[..HEADER_BYTES];
    assert front[..40] == h;
    SliceAt(front, h, 0, 4);
    SliceAt(front, h, 4, 2);
    SliceAt(front, h, 36, 4);
    SliceAt(b, front, 40, 4);
    SliceAt(b, h, 6, 2);
    SliceAt(b, h, 8, 4);
    SliceAt(b, h, 12, 8);
    SliceAt(b, h, 20, 8);
    SliceAt(b, h, 28, 8);
  }

  /** Every accepted frame is the encoding of what it decodes to. */
  lemma EncodeDecoded(b: bytes)
    requires DecodeFrame(b).Success?
    ensures var f := DecodeFrame(b).value; f.InRange() && EncodeFrame(f) == Success(b)
  {
    hide CrcValue;
    Widths();
    var f := DecodeFrame(b).value;
    var n := |f.payload|;
    var front := b[..HEADER_BYTES];
    SliceAt(b, front, 0, 4);
    SliceAt(b, front, 4, 2);
    SliceAt(b, front, 36, 4);
    SliceAt(b, front, 40, 4);
    assert front[..40] == b[..40];
    EncodeHeader(b, f);
    LittleCanonical(b[40..44]);
    LittleCanonical(b[44 + n..48 + n]);
    assert b == b[..40] + b[40..44] + b[44..44 + n] + b[44 + n..48 + n];
  }

  lemma EncodeHeader(b: bytes, f: Frame)
    requires |b| >= 40 && At(b, 0, 4) == FRAME_MAGIC && At(b, 4, 2) == PROTOCOL_VERSION
    requires At(b, 6, 2) == f.kind && At(b, 8, 4) == f.flags && At(b, 12, 8) == f.session
    requires At(b, 20, 8) == f.sequence && At(b, 28, 8) == f.nonce && At(b, 36, 4) == |f.payload|
    ensures HeaderFields(f) == b[..40]
  {
    LittleCanonical(b[0..4]);
    LittleCanonical(b[4..6]);
    LittleCanonical(b[6..8]);
    LittleCanonical(b[8..12]);
    LittleCanonical(b[12..20]);
    LittleCanonical(b[20..28]);
    LittleCanonical(b[28..36]);
    LittleCanonical(b[36..40]);
    assert b[..40] == b[0..4] + b[4..6] + b[6..8] + b[8..12] + b[12..20] + b[20..28] + b[28..36] + b[36..40];
  }

  /** Encoding succeeds exactly on payloads within the bound, with the advertised size. */
  lemma EncodeBound(f: Frame)
    ensures EncodeFrame(f).Success? <==> |f.payload| <= MAX_PAYLOAD_BYTES
    ensures EncodeFrame(f).Success? ==> |EncodeFrame(f).value| == EncodedFrameSize(|f.payload|)
  {}

  /** No frame is a proper prefix of a frame: cut short it is truncated, extended it has garbage. */
  lemma SelfDelimiting(f: Frame, extra: bytes, k: nat)
    requires f.InRange() && |f.payload| <= MAX_PAYLOAD_BYTES
    ensures k < |FrameBytes(f)| ==> DecodeFrame(FrameBytes(f)[..k]) == Failure(TRUNCATED)
    ensures extra != [] ==> DecodeFrame(FrameBytes(f) + extra) == Failure(TRAILING_GARBAGE)
  {
    hide CrcValue, HeaderFields, FrameBytes, At;
    var b := FrameBytes(f);
    DecodeEncoded(f);
    if k < |b| && k >= HEADER_BYTES {
      assert b[..k][..HEADER_BYTES] == b[..HEADER_BYTES];
    }
    assert (b + extra)[..HEADER_BYTES] == b[..HEADER_BYTES];
  }

  // ---------------------------------------------------------------------------
  // Corruption
  // ---------------------------------------------------------------------------

  /** Every one-byte corruption of an accepted frame is refused. */
  lemma CorruptionRefused(b: bytes, c: bytes, i: nat)
    requires DecodeFrame(b).Success? && ChangedAt(b, c, i)
    ensures DecodeFrame(c).Failure?
  {
    hide CrcValue;
    var n := |DecodeFrame(b).value.payload|;
    var h, g := b[..HEADER_BYTES], c[..HEADER_BYTES];
    assert h[..40] == b[0..40] && g[..40] == c[0..40];
    SliceAt(b, h, 40, 4);
    SliceAt(c, g, 40, 4);
    if i < HEADER_BYTES {
      ChangedBody(b, c, i, 0, 40);
    } else {
      ChangedSlice(b, c, i, 0, HEADER_BYTES);
      assert h == b[0..HEADER_BYTES] && g == c[0..HEADER_BYTES];
      ChangedBody(b, c, i, HEADER_BYTES, HEADER_BYTES + n);
    }
  }

  // ---------------------------------------------------------------------------
  // The session's read loop
  // ---------------------------------------------------------------------------

  /** One header-then-tail read from a byte stream. */
  function ReadFrame(stream: bytes): (r: Result<(Frame, bytes)>)
    ensures r.Success? ==> |r.value.1| < |stream|
  {
    if |stream| < HEADER_BYTES then Failure(TRUNCATED) else
    var length :- PayloadLength(stream[..HEADER_BYTES]);
    var size := EncodedFrameSize(length);
    if |stream| < size then Failure(TRUNCATED) else
    var frame :- DecodeFrame(stream[..size]);
    Success((frame, stream[size..]))
  }

  method ReadFrames(stream: bytes) returns (frames: seq<Frame>, error: ErrorCode)
    ensures (frames, error) == FramesOf(stream)
  {
    hide ReadFrame;
    frames, error := [], OK;
    var rest := stream;
    assert [] + FramesOf(rest).0 == FramesOf(rest).0;
    while rest != []
      invariant error == OK
      invariant FramesOf(stream) == (frames + FramesOf(rest).0, FramesOf(rest).1)
      decreases |rest|
    {
      var next := ReadFrame(rest);
      if next.Failure? {
        error := next.error;
        assert frames + [] == frames;
        return;
      }
      assert frames + FramesOf(rest).0 == frames + [next.value.0] + FramesOf(next.value.1).0;
      frames := frames + [next.value.0];
      rest := next.value.1;
    }
    assert frames + [] == frames;
  }

  /** The frames read before the stream ends or one is refused, and the refusal. */
  function FramesOf(stream: bytes): (seq<Frame>, ErrorCode)
    decreases |stream|
  {
    if stream == [] then ([], OK)
    else match ReadFrame(stream)
      case Failure(error) => ([], error)
      case Success(next) => ([next.0] + FramesOf(next.1).0, FramesOf(next.1).1)
  }

  function Concatenation(frames: seq<Frame>): bytes
    decreases |frames|
  {
    if frames == [] then [] else FrameBytes(frames[0]) + Concatenation(frames[1..])
  }

  lemma ReadOne(b: bytes, rest: bytes)
    requires DecodeFrame(b).Success?
    ensures ReadFrame(b + rest) == Success((DecodeFrame(b).value, rest))
  {
    hide CrcValue;
    var stream := b + rest;
    assert stream[..HEADER_BYTES] == b[..HEADER_BYTES];
    assert stream[..|b|] == b && stream[|b|..] == rest;
  }

  /** The read loop over any list of encoded frames returns exactly that list. */
  lemma {:induction false} StreamRoundTrip(frames: seq<Frame>)
    requires forall f :: f in frames ==> f.InRange() && |f.payload| <= MAX_PAYLOAD_BYTES
    ensures FramesOf(Concatenation(frames)) == (frames, OK)
    decreases |frames|
  {
    hide ReadFrame, FrameBytes, DecodeFrame;
    if frames != [] {
      var b, rest := FrameBytes(frames[0]), Concatenation(frames[1..]);
      DecodeEncoded(frames[0]);
      ReadOne(b, rest);
      StreamRoundTrip(frames[1..]);
      assert frames == [frames[0]] + frames[1..];
    }
  }
}
