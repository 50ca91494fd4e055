/** CRC-32C (Castagnoli): the table-driven loop of the program, the register it abbreviates
    one bit at a time, and the polynomial long division of RFC 3720 section 12.1 that both
    compute. A 32-bit word is its bits, least significant first, so `>> 1` drops the first
    bit and appends a zero. */
module Crc32c {
  import opened Bytes

  type word = w: bits | |w| == 32 witness Zeros(32)

  /** The reflected Castagnoli polynomial. */
  const POLYNOMIAL: word := BitsOf(0x82F63B78, 32)

  function Not(w: bits): (r: bits)
    ensures |r| == |w|
    ensures forall i :: 0 <= i < |w| ==> r[i] == !w[i]
  {
    seq(|w|, i requires 0 <= i < |w| => !w[i])
  }

  // ---------------------------------------------------------------------------
  // The register, one bit at a time
  // ---------------------------------------------------------------------------

  function ShiftRight(w: word, n: nat): word
    requires n <= 32
  {
    w[n..] + Zeros(n)
  }

  function Shift(crc: word): word {
    if crc[0] then Xor(ShiftRight(crc, 1), POLYNOMIAL) else ShiftRight(crc, 1)
  }

  function AddFirst(crc: word, bit: bool): word {
    crc[0 := crc[0] != bit]
  }

  /** The register after absorbing message bits in order; zero bits only shift it. */
  function Absorb(crc: word, r: bits): word
    decreases |r|
  {
    if r == [] then crc else Absorb(Shift(AddFirst(crc, r[0])), r[1..])
  }

  function Word(b: byte): word {
    BitsOf(b, 8) + Zeros(24)
  }

  /** The register after a run of bytes: each is added to the low end and shifted through. */
  function Register(crc: word, data: bytes): word
    decreases |data|
  {
    if data == [] then crc else Register(Absorb(Xor(crc, Word(data[0])), Zeros(8)), data[1..])
  }

  function Extend(seed: word, data: bytes): word {
    Not(Register(Not(seed), data))
  }

  function Crc(data: bytes): word {
    Extend(Zeros(32), data)
  }

  lemma ShiftSplit(x: word, y: word)
    ensures Shift(Xor(x, y)) == Xor(Shift(x), Shift(y))
  {}

  /** Absorbing is linear. */
  lemma {:induction false} AbsorbSplit(x: word, y: word, a: bits, b: bits)
    requires |a| == |b|
    ensures Absorb(Xor(x, y), Xor(a, b)) == Xor(Absorb(x, a), Absorb(y, b))
    decreases |a|
  {
    if a != [] {
      var u, v := AddFirst(x, a[0]), AddFirst(y, b[0]);
      assert Xor(u, v) == AddFirst(Xor(x, y), a[0] != b[0]);
      ShiftSplit(u, v);
      assert Xor(a, b)[1..] == Xor(a[1..], b[1..]);
      AbsorbSplit(Shift(u), Shift(v), a[1..], b[1..]);
    }
  }

  lemma {:induction false} AbsorbConcat(crc: word, r: bits, s: bits)
    ensures Absorb(crc, r + s) == Absorb(Absorb(crc, r), s)
    decreases |r|
  {
    if r == [] {
      assert r + s == s;
    } else {
      assert (r + s)[1..] == r[1..] + s;
      AbsorbConcat(Shift(AddFirst(crc, r[0])), r[1..], s);
    }
  }

  /** A word whose low bits are zero is only moved. */
  lemma {:induction false} AbsorbPure(x: word, n: nat)
    requires n <= 32 && x[..n] == Zeros(n)
    ensures Absorb(x, Zeros(n)) == ShiftRight(x, n)
    decreases n
  {
    if n > 0 {
      assert !x[..n][0];
      assert AddFirst(x, false) == x;
      assert ShiftRight(x, 1)[..n - 1] == x[..n][1..];
      assert Zeros(n)[1..] == Zeros(n - 1);
      AbsorbPure(ShiftRight(x, 1), n - 1);
      assert ShiftRight(ShiftRight(x, 1), n - 1) == ShiftRight(x, n);
    } else {
      assert ShiftRight(x, 0) == x;
    }
  }

  /** Bits may be added to the low end at once and shifted through afterwards. */
  lemma {:induction false} AbsorbAdded(crc: word, r: bits)
    requires |r| <= 32
    ensures Absorb(crc, r) == Absorb(Xor(crc, r + Zeros(32 - |r|)), Zeros(|r|))
    decreases |r|
  {
    if r == [] {
      assert Xor(crc, r + Zeros(32)) == crc;
    } else {
      AbsorbAdded(Shift(AddFirst(crc, r[0])), r[1..]);
      ShiftAdded(crc, r);
      assert Zeros(|r|)[1..] == Zeros(|r| - 1);
    }
  }

  lemma ShiftAdded(crc: word, r: bits)
    requires 0 < |r| <= 32
    ensures Shift(AddFirst(Xor(crc, r + Zeros(32 - |r|)), false))
         == Xor(Shift(AddFirst(crc, r[0])), r[1..] + Zeros(32 - |r[1..]|))
  {
    var first := AddFirst(crc, r[0]);
    var rest: word := Zeros(1) + r[1..] + Zeros(32 - |r|);
    assert AddFirst(Xor(crc, r + Zeros(32 - |r|)), false) == Xor(first, rest);
    ShiftSplit(first, rest);
    assert Shift(rest) == r[1..] + Zeros(32 - |r[1..]|);
  }

  // ---------------------------------------------------------------------------
  // Table-driven form
  // ---------------------------------------------------------------------------

  ghost predicate IsTable(table: seq<word>) {
    |table| == 256 && forall i: byte :: table[i] == Absorb(Word(i), Zeros(8))
  }

  method BuildTable() returns (table: seq<word>)
    ensures IsTable(table)
  {
    table := [];
    var i := 0;
    while i < 256
      invariant 0 <= i <= 256 && |table| == i
      invariant forall j: byte | j < i :: table[j] == Absorb(Word(j), Zeros(8))
    {
      var crc := Word(i);
      var bit := 0;
      while bit < 8
        invariant 0 <= bit <= 8
        invariant Absorb(crc, Zeros(8 - bit)) == Absorb(Word(i), Zeros(8))
      {
        assert AddFirst(crc, false) == crc;
        assert Zeros(8 - bit)[1..] == Zeros(8 - (bit + 1));
        crc := Shift(crc);
        bit := bit + 1;
      }
      table := table + [crc];
      i := i + 1;
    }
  }

  /** The narrowing conversion that picks a table entry. */
  function LowByte(w: word): byte {
    LowByteFits(w);
    Value(w[..8])
  }

  lemma LowByteFits(w: word)
    ensures Value(w[..8]) < 256
  {
    assert Pow2(8) == 256;
    assert |w[..8]| == 8;
  }

  method ExtendWithTable(table: seq<word>, seed: word, data: bytes) returns (result: word)
    requires IsTable(table)
    ensures result == Extend(seed, data)
  {
    var crc: word := Not(seed);
    var i := 0;
    while i < |data|
      invariant 0 <= i <= |data|
      invariant Register(crc, data[i..]) == Register(Not(seed), data)
    {
      TableStep(crc, data[i]);
      assert data[i..][0] == data[i] && data[i..][1..] == data[i + 1..];
      var index := LowByte(Xor(crc, Word(data[i])));
      crc := Xor(table[index], ShiftRight(crc, 8));
      i := i + 1;
    }
    result := Not(crc);
  }

  /** One table lookup is eight single shifts. */
  lemma TableStep(crc: word, b: byte)
    ensures Absorb(Xor(crc, Word(b)), Zeros(8))
         == Xor(Absorb(Word(LowByte(Xor(crc, Word(b)))), Zeros(8)), ShiftRight(crc, 8))
  {
    var x := Xor(crc, Word(b));
    SplitLow(x);
    BitsOfValue(x[..8]);
    assert ShiftRight(x, 8) == ShiftRight(crc, 8);
  }

  lemma SplitLow(x: word)
    ensures Absorb(x, Zeros(8)) == Xor(Absorb(x[..8] + Zeros(24), Zeros(8)), ShiftRight(x, 8))
  {
    var low := x[..8] + Zeros(24);
    var high: word := Zeros(8) + x[8..];
    assert x == Xor(low, high);
    assert Zeros(8) == Xor(Zeros(8), Zeros(8));
    AbsorbSplit(low, high, Zeros(8), Zeros(8));
    assert high[..8] == Zeros(8);
    AbsorbPure(high, 8);
    assert ShiftRight(high, 8) == ShiftRight(x, 8);
  }

  // ---------------------------------------------------------------------------
  // The polynomial division of RFC 3720 section 12.1
  // ---------------------------------------------------------------------------

  /** x^32 and below, highest power first: the divisor 0x11EDC6F41. */
  const GENERATOR: bits := [true] + POLYNOMIAL

  /** Add `y` to the highest powers of `x`. */
  function AddAtFront(x: bits, y: bits): (r: bits)
    requires |y| <= |x|
    ensures |r| == |x|
    ensures forall i :: 0 <= i < |x| ==> r[i] == (if i < |y| then x[i] != y[i] else x[i])
  {
    Xor(x[..|y|], y) + x[|y|..]
  }

  /** Long division over GF(2), highest power first: the remainder modulo GENERATOR. */
  function Remainder(dividend: bits): (r: bits)
    requires |dividend| >= 32
    ensures |r| == 32
    decreases |dividend|
  {
    if |dividend| == 32 then dividend
    else if dividend[0] then Remainder(AddAtFront(dividend, GENERATOR)[1..])
    else Remainder(dividend[1..])
  }

  /** Message bytes in order, each byte's least significant bit as the highest power. */
  function MessageBits(data: bytes): (r: bits)
    ensures |r| == 8 * |data|
    decreases |data|
  {
    if data == [] then [] else BitsOf(data[0], 8) + MessageBits(data[1..])
  }

  /** Section 12.1: complement the first 32 bits, multiply by x^32, divide, complement. */
  function Rfc3720(data: bytes): word {
    var shifted := MessageBits(data) + Zeros(32);
    Not(Remainder(AddAtFront(shifted, Not(Zeros(32)))))
  }

  lemma {:induction false} RegisterAbsorbs(crc: word, data: bytes)
    ensures Register(crc, data) == Absorb(crc, MessageBits(data))
    decreases |data|
  {
    if data != [] {
      AbsorbAdded(crc, BitsOf(data[0], 8));
      AbsorbConcat(crc, BitsOf(data[0], 8), MessageBits(data[1..]));
      RegisterAbsorbs(Absorb(Xor(crc, Word(data[0])), Zeros(8)), data[1..]);
    }
  }

  /** The register holds the 32 powers about to be cancelled. */
  lemma {:induction false} AbsorbDivides(crc: word, r: bits)
    ensures Absorb(crc, r) == Remainder(AddAtFront(r + Zeros(32), crc))
    decreases |r|
  {
    if r == [] {
      assert AddAtFront(r + Zeros(32), crc) == crc;
    } else {
      DivisionStep(crc, r);
      AbsorbDivides(Shift(AddFirst(crc, r[0])), r[1..]);
    }
  }

  lemma DivisionStep(crc: word, r: bits)
    requires r != []
    ensures Remainder(AddAtFront(r + Zeros(32), crc))
         == Remainder(AddAtFront(r[1..] + Zeros(32), Shift(AddFirst(crc, r[0]))))
  {
    var d := AddAtFront(r + Zeros(32), crc);
    var first := AddFirst(crc, r[0]);
    assert d[0] == first[0];
    if first[0] {
      CancelHead(crc, r);
    } else {
      assert d[1..] == AddAtFront(r[1..] + Zeros(32), Shift(first));
    }
  }

  lemma CancelHead(crc: word, r: bits)
    requires r != [] && AddFirst(crc, r[0])[0]
    ensures AddAtFront(AddAtFront(r + Zeros(32), crc), GENERATOR)[1..]
         == AddAtFront(r[1..] + Zeros(32), Shift(AddFirst(crc, r[0])))
  {
    var first := AddFirst(crc, r[0]);
    var shifted := ShiftRight(first, 1);
    var d, tail := AddAtFront(r + Zeros(32), crc), r[1..] + Zeros(32);
    assert (r + Zeros(32))[1..] == tail;
    assert first[1..] == crc[1..];
    var lhs := AddAtFront(d, GENERATOR)[1..];
    var rhs := AddAtFront(tail, Xor(shifted, POLYNOMIAL));
    forall i | 0 <= i < |tail| ensures lhs[i] == rhs[i] {
      assert (r + Zeros(32))[i + 1] == tail[i];
      if i < 31 {
        assert shifted[i] == first[1..][i] == crc[1..][i];
      }
    }
    assert lhs == rhs;
  }

  /** The program's checksum is the one RFC 3720 defines by division, on every input. */
  lemma CrcIsDivision(data: bytes)
    ensures Crc(data) == Rfc3720(data)
  {
    RegisterAbsorbs(Not(Zeros(32)), data);
    AbsorbDivides(Not(Zeros(32)), MessageBits(data));
  }

  // ---------------------------------------------------------------------------
  // Extension and error detection
  // ---------------------------------------------------------------------------

  lemma {:induction false} RegisterConcat(crc: word, a: bytes, b: bytes)
    ensures Register(crc, a + b) == Register(Register(crc, a), b)
    decreases |a|
  {
    if a == [] {
      assert a + b == b;
    } else {
      assert (a + b)[1..] == a[1..] + b;
      RegisterConcat(Absorb(Xor(crc, Word(a[0])), Zeros(8)), a[1..], b);
    }
  }

  lemma NotNot(w: word)
    ensures Not(Not(w)) == w
  {}

  /** Checksumming may be resumed anywhere. */
  lemma CrcExtends(a: bytes, b: bytes)
    ensures Crc(a + b) == Extend(Crc(a), b)
  {
    RegisterConcat(Not(Zeros(32)), a, b);
    NotNot(Register(Not(Zeros(32)), a));
  }

  lemma TopBit()
    ensures POLYNOMIAL[31]
  {
    assert Pow2(8) == 256 && Pow2(16) == 65536 && Pow2(24) == 0x100_0000;
    assert Pow2(31) == 0x8000_0000;
  }

  lemma ShiftInjective(x: word, y: word)
    requires Shift(x) == Shift(y)
    ensures x == y
  {
    TopBit();
    assert Shift(x)[31] == x[0];
    assert Shift(y)[31] == y[0];
    var p, q := ShiftRight(x, 1), ShiftRight(y, 1);
    forall i | 0 <= i < 32 ensures p[i] == q[i] {
      assert Shift(x)[i] == Shift(y)[i];
    }
    assert x[1..] == p[..31] && y[1..] == q[..31];
    assert x == [x[0]] + x[1..] && y == [y[0]] + y[1..];
  }

  /** Different registers stay different, whatever follows. */
  lemma {:induction false} AbsorbInjective(x: word, y: word, r: bits)
    requires Absorb(x, r) == Absorb(y, r)
    ensures x == y
    decreases |r|
  {
    if r != [] {
      var u, v := AddFirst(x, r[0]), AddFirst(y, r[0]);
      AbsorbInjective(Shift(u), Shift(v), r[1..]);
      ShiftInjective(u, v);
      assert x == AddFirst(u, r[0]) && y == AddFirst(v, r[0]);
    }
  }

  /** At most 32 bits that cancel a register are that register's own low bits. */
  lemma {:induction false} AbsorbToZero(x: word, d: bits)
    requires |d| <= 32 && Absorb(x, d) == Zeros(32)
    ensures x == d + Zeros(32 - |d|)
    decreases |d|
  {
    if d == [] {
      assert x == d + Zeros(32);
    } else {
      var u := AddFirst(x, d[0]);
      AbsorbToZero(Shift(u), d[1..]);
      TopBit();
      assert !Shift(u)[31];
      assert !u[0];
      assert u[1..] == ShiftRight(u, 1)[..31] == (d[1..] + Zeros(32 - |d|));
      assert x == [d[0]] + u[1..];
      assert d == [d[0]] + d[1..];
    }
  }

  lemma {:induction false} MessageBitsInjective(a: bytes, b: bytes)
    requires |a| == |b| && MessageBits(a) == MessageBits(b)
    ensures a == b
    decreases |a|
  {
    if a != [] {
      assert MessageBits(a)[..8] == BitsOf(a[0], 8) && MessageBits(b)[..8] == BitsOf(b[0], 8);
      assert MessageBits(a)[8..] == MessageBits(a[1..]) && MessageBits(b)[8..] == MessageBits(b[1..]);
      ByteBits(a[0]);
      ByteBits(b[0]);
      MessageBitsInjective(a[1..], b[1..]);
      assert a == [a[0]] + a[1..] && b == [b[0]] + b[1..];
    }
  }

  lemma ByteBits(b: byte)
    ensures Value(BitsOf(b, 8)) == b
  {
    assert Pow2(8) == 256;
    ValueOfBits(b, 8);
  }

  /** From one register, different runs of at most four bytes lead to different registers. */
  lemma RunsDiffer(start: word, a: bytes, b: bytes)
    requires |a| == |b| <= 4 && Register(start, a) == Register(start, b)
    ensures a == b
  {
    var p, q := MessageBits(a), MessageBits(b);
    RegisterAbsorbs(start, a);
    RegisterAbsorbs(start, b);
    AbsorbSplit(start, start, p, q);
    XorSelf(Absorb(start, p));
    XorSelf(start);
    var d := Xor(p, q);
    AbsorbToZero(Zeros(32), d);
    forall i | 0 <= i < |d| ensures p[i] == q[i] {
      assert d[i] == (d + Zeros(32 - |d|))[i] == Zeros(32)[i];
    }
    assert p == q;
    MessageBitsInjective(a, b);
  }

  lemma XorSelf(w: word)
    ensures Xor(w, w) == Zeros(32)
  {}

  /** Two inputs that differ only inside one run of at most four bytes never share a checksum. */
  lemma BurstDetected(prefix: bytes, a: bytes, b: bytes, suffix: bytes)
    requires |a| == |b| <= 4 && a != b
    ensures Crc(prefix + a + suffix) != Crc(prefix + b + suffix)
  {
    var start := Register(Not(Zeros(32)), prefix);
    var x, y := Register(start, a), Register(start, b);
    if Crc(prefix + a + suffix) == Crc(prefix + b + suffix) {
      RegisterSplit(prefix, a, suffix);
      RegisterSplit(prefix, b, suffix);
      NotNot(Register(x, suffix));
      NotNot(Register(y, suffix));
      RegisterAbsorbs(x, suffix);
      RegisterAbsorbs(y, suffix);
      AbsorbInjective(x, y, MessageBits(suffix));
      RunsDiffer(start, a, b);
    }
  }

  lemma RegisterSplit(prefix: bytes, a: bytes, suffix: bytes)
    ensures Crc(prefix + a + suffix)
         == Not(Register(Register(Register(Not(Zeros(32)), prefix), a), suffix))
  {
    RegisterConcat(Not(Zeros(32)), prefix, a);
    RegisterConcat(Not(Zeros(32)), prefix + a, suffix);
  }

  /** The checksum as the number written on the wire. */
  function CrcValue(data: bytes): (v: nat)
    ensures v < 0x1_0000_0000
  {
    assert Pow2(8) == 256 && Pow2(16) == 65536 && Pow2(24) == 0x100_0000;
    assert Pow2(32) == 0x1_0000_0000;
    Value(Crc(data))
  }

  lemma BurstDetectedInValue(prefix: bytes, a: bytes, b: bytes, suffix: bytes)
    requires |a| == |b| <= 4 && a != b
    ensures CrcValue(prefix + a + suffix) != CrcValue(prefix + b + suffix)
  {
    BurstDetected(prefix, a, b, suffix);
    BitsOfValue(Crc(prefix + a + suffix));
    BitsOfValue(Crc(prefix + b + suffix));
  }
}
