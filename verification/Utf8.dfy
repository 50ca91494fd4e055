/** Text validation, and its exact distance from the grammar of RFC 3629 section 4. */
module Utf8 {
  import opened Bytes
  import opened Results

  predicate Tail(b: byte) {
    0x80 <= b <= 0xBF
  }

  /** Length of the UTF8-char of RFC 3629 section 4 at the front of `text`, 0 when there is none. */
  function CharLength(text: bytes): (n: nat)
    ensures n <= |text|
  {
    if |text| >= 1 && text[0] <= 0x7F then 1
    else if |text| >= 2 && 0xC2 <= text[0] <= 0xDF && Tail(text[1]) then 2
    else if |text| >= 3 && Lead3(text[0], text[1]) && Tail(text[2]) then 3
    else if |text| >= 4 && Lead4(text[0], text[1]) && Tail(text[2]) && Tail(text[3]) then 4
    else 0
  }

  predicate Lead3(lead: byte, second: byte) {
    || (lead == 0xE0 && 0xA0 <= second <= 0xBF)
    || (0xE1 <= lead <= 0xEC && Tail(second))
    || (lead == 0xED && 0x80 <= second <= 0x9F)
    || (0xEE <= lead <= 0xEF && Tail(second))
  }

  predicate Lead4(lead: byte, second: byte) {
    || (lead == 0xF0 && 0x90 <= second <= 0xBF)
    || (0xF1 <= lead <= 0xF3 && Tail(second))
    || (lead == 0xF4 && 0x80 <= second <= 0x8F)
  }

  /** UTF8-octets of RFC 3629 section 4. */
  predicate WellFormed(text: bytes)
    decreases |text|
  {
    text == [] || (CharLength(text) > 0 && WellFormed(text[CharLength(text)..]))
  }

  /** What the program accepts: RFC 3629, and also the overlong pair led by C1. */
  function AcceptedLength(text: bytes): (n: nat)
    ensures n <= |text|
  {
    if |text| >= 2 && text[0] == 0xC1 && Tail(text[1]) then 2 else CharLength(text)
  }

  predicate Accepted(text: bytes)
    decreases |text|
  {
    text == [] || (AcceptedLength(text) > 0 && Accepted(text[AcceptedLength(text)..]))
  }

  method IsValidUtf8(text: bytes) returns (ok: bool)
    ensures ok == Accepted(text)
  {
    var i := 0;
    while i < |text|
      invariant 0 <= i <= |text|
      invariant Accepted(text[i..]) == Accepted(text)
    {
      var n := ReadSequence(text[i..]);
      if n == 0 {
        return false;
      }
      assert text[i..][n..] == text[i + n..];
      i := i + n;
    }
    return true;
  }

  /** One pass of the validation loop: the length of the leading sequence, 0 to refuse. */
  method ReadSequence(text: bytes) returns (n: nat)
    requires text != []
    ensures n == AcceptedLength(text)
  {
    var lead := text[0];
    var extra: nat, codePoint: nat := 0, 0;
    if lead < 0x80 {
      return 1;
    }
    if lead / 32 == 6 {
      extra, codePoint := 1, lead % 32;
      if codePoint == 0 {
        return 0;
      }
    } else if lead / 16 == 14 {
      extra, codePoint := 2, lead % 16;
    } else if lead / 8 == 30 {
      extra, codePoint := 3, lead % 8;
    } else {
      return 0;
    }
    if extra >= |text| {
      return 0;
    }
    var k := 1;
    ghost var start := codePoint;
    while k <= extra
      invariant 1 <= k <= extra + 1
      invariant forall j :: 1 <= j < k ==> Tail(text[j])
      invariant codePoint == Fold(start, text, k - 1)
    {
      if text[k] / 64 != 2 {
        NotTail(text, k, extra);
        return 0;
      }
      codePoint := codePoint * 64 + text[k] % 64;
      k := k + 1;
    }
    Classify(text, extra);
    if extra == 2 && codePoint < 0x800 {
      return 0;
    }
    if extra == 3 && codePoint < 0x10000 {
      return 0;
    }
    if codePoint > 0x10FFFF {
      return 0;
    }
    if 0xD800 <= codePoint <= 0xDFFF {
      return 0;
    }
    return extra + 1;
  }

  /** The code point after folding in six bits from each of `k` continuation bytes. */
  function Fold(start: nat, text: bytes, k: nat): nat
    requires k < |text|
    decreases k
  {
    if k == 0 then start else Fold(start, text, k - 1) * 64 + text[k] % 64
  }

  predicate Announces(lead: byte, extra: nat) {
    (extra == 1 && lead / 32 == 6) || (extra == 2 && lead / 16 == 14) || (extra == 3 && lead / 8 == 30)
  }

  function LeadBits(lead: byte, extra: nat): nat {
    if extra == 1 then lead % 32 else if extra == 2 then lead % 16 else lead % 8
  }

  lemma NotTail(text: bytes, k: nat, extra: nat)
    requires 1 <= k <= extra < |text| && Announces(text[0], extra)
    requires !Tail(text[k])
    ensures AcceptedLength(text) == 0
  {}

  /** The range checks on the code point are the second-byte ranges of the grammar. */
  lemma Classify(text: bytes, extra: nat)
    requires extra < |text| && Announces(text[0], extra)
    requires forall j :: 1 <= j <= extra ==> Tail(text[j])
    requires extra == 1 ==> LeadBits(text[0], 1) != 0
    ensures var v := Fold(LeadBits(text[0], extra), text, extra);
      AcceptedLength(text) ==
        if (extra == 2 && v < 0x800) || (extra == 3 && v < 0x10000) || v > 0x10FFFF
          || 0xD800 <= v <= 0xDFFF then 0 else extra + 1
  {
    var start := LeadBits(text[0], extra);
    assert Fold(start, text, 0) == start;
    assert Fold(start, text, 1) == start * 64 + text[1] % 64;
    if extra == 2 {
      assert Fold(start, text, 2) == (start * 64 + text[1] % 64) * 64 + text[2] % 64;
    } else if extra == 3 {
      var second := (start * 64 + text[1] % 64) * 64 + text[2] % 64;
      assert Fold(start, text, 2) == second;
      assert Fold(start, text, 3) == second * 64 + text[3] % 64;
    }
  }

  /** Acceptance is RFC 3629 exactly on the texts without the octet C1. */
  lemma {:induction false} AcceptedIffWellFormed(text: bytes)
    ensures WellFormed(text) <==> Accepted(text) && 0xC1 !in text
    decreases |text|
  {
    if text != [] {
      var n := AcceptedLength(text);
      if n > 0 {
        assert text == text[..n] + text[n..];
        AcceptedIffWellFormed(text[n..]);
      }
    }
  }

  lemma C1IsAccepted()
    ensures Accepted([0xC1, 0x80]) && !WellFormed([0xC1, 0x80])
  {
    assert [0xC1, 0x80][2..] == [];
  }

  function TextError(text: bytes, maxBytes: nat): ErrorCode {
    if |text| > maxBytes then TOO_LARGE
    else if !Accepted(text) then INVALID_UTF8
    else if 0 in text then INVALID_ARGUMENT
    else OK
  }
}
