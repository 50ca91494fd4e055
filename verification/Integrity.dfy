/** Fields at fixed offsets, and what one changed byte does to a checksummed body. */
module Integrity {
  import opened Bytes
  import opened Codec
  import opened Crc32c

  function At(b: bytes, offset: nat, width: nat): nat
    requires offset + width <= |b|
  {
    FromLittle(b[offset..offset + width])
  }

  /** Reading inside a prefix reads the whole. */
  lemma SliceAt(b: bytes, h: bytes, offset: nat, width: nat)
    requires |h| <= |b| && b[..|h|] == h && offset + width <= |h|
    ensures At(b, offset, width) == At(h, offset, width)
  {
    assert b[..|h|][offset..offset + width] == b[offset..offset + width];
  }

  /** `c` is `b` with the byte at `i` changed. */
  predicate ChangedAt(b: bytes, c: bytes, i: nat) {
    i < |b| == |c| && b[i] != c[i] && b[..i] == c[..i] && b[i + 1..] == c[i + 1..]
  }

  lemma ChangedSlice(b: bytes, c: bytes, i: nat, lo: nat, hi: nat)
    requires ChangedAt(b, c, i) && lo <= hi <= |b|
    ensures lo <= i < hi ==> ChangedAt(b[lo..hi], c[lo..hi], i - lo)
    ensures !(lo <= i < hi) ==> b[lo..hi] == c[lo..hi]
  {
    assert forall j :: 0 <= j < i ==> b[j] == b[..i][j] == c[..i][j] == c[j];
    assert forall j :: i < j < |b| ==> b[j] == b[i + 1..][j - i - 1] == c[i + 1..][j - i - 1] == c[j];
  }

  lemma ChangedChecksum(b: bytes, c: bytes, i: nat)
    requires ChangedAt(b, c, i)
    ensures CrcValue(b) != CrcValue(c)
  {
    assert b == b[..i] + [b[i]] + b[i + 1..];
    assert c == c[..i] + [c[i]] + c[i + 1..];
    BurstDetectedInValue(b[..i], [b[i]], [c[i]], b[i + 1..]);
  }

  lemma ChangedNumber(b: bytes, c: bytes, i: nat)
    requires ChangedAt(b, c, i)
    ensures FromLittle(b) != FromLittle(c)
  {
    LittleCanonical(b);
    LittleCanonical(c);
  }

  /** A body and its checksum never survive a one-byte change to either. */
  lemma ChangedBody(b: bytes, c: bytes, i: nat, lo: nat, hi: nat)
    requires ChangedAt(b, c, i) && lo <= hi && hi + 4 <= |b| && lo <= i < hi + 4
    requires CrcValue(b[lo..hi]) == At(b, hi, 4)
    ensures CrcValue(c[lo..hi]) != At(c, hi, 4)
  {
    ChangedSlice(b, c, i, lo, hi);
    ChangedSlice(b, c, i, hi, hi + 4);
    if i < hi {
      ChangedChecksum(b[lo..hi], c[lo..hi], i - lo);
    } else {
      ChangedNumber(b[hi..hi + 4], c[hi..hi + 4], i - hi);
    }
  }
}
