/** Octets, and machine words as sequences of bits with the least significant bit first. */
module Bytes {
  type byte = b: int | 0 <= b < 256 witness 0

  type bytes = seq<byte>

  type bits = seq<bool>

  function Pow2(n: nat): (p: nat)
    ensures p >= 1
    decreases n
  {
    if n == 0 then 1 else 2 * Pow2(n - 1)
  }

  /** The low `width` binary digits of `v`. */
  function BitsOf(v: nat, width: nat): (r: bits)
    ensures |r| == width
  {
    seq(width, i requires 0 <= i < width => (v / Pow2(i)) % 2 == 1)
  }

  lemma BitsOfTail(v: nat, width: nat)
    requires width > 0
    ensures BitsOf(v, width) == [v % 2 == 1] + BitsOf(v / 2, width - 1)
  {
    forall i | 0 < i < width ensures BitsOf(v, width)[i] == BitsOf(v / 2, width - 1)[i - 1] {
      DivideTwice(v, 2, Pow2(i - 1));
    }
  }

  lemma DivideTwice(v: nat, a: nat, b: nat)
    requires a > 0 && b > 0
    ensures a * b > 0 && v / (a * b) == (v / a) / b
  {
    var q, r := v / a, v % a;
    var q2, s := q / b, q % b;
    DivMod(v, a);
    DivMod(q, b);
    Regroup(v, a, b, q, r, q2, s);
    QuotientUnique(v, a * b, q2, a * s + r);
  }

  lemma DivMod(v: nat, d: nat)
    requires d > 0
    ensures v == d * (v / d) + v % d && v % d < d
  {}

  lemma Regroup(v: nat, a: nat, b: nat, q: nat, r: nat, q2: nat, s: nat)
    requires v == a * q + r && r < a && q == b * q2 + s && s < b
    ensures v == (a * b) * q2 + (a * s + r) && a * s + r < a * b
  {
    MulMonotone(a, s, b - 1);
    assert a * (b - 1) == a * b - a;
    assert a * q == a * (b * q2 + s) == a * (b * q2) + a * s;
    assert a * (b * q2) == (a * b) * q2;
  }

  lemma MulMonotone(a: nat, x: nat, y: nat)
    requires x <= y
    ensures a * x <= a * y
  {
    assert a * y == a * x + a * (y - x);
  }

  lemma QuotientUnique(v: nat, d: nat, q: nat, r: nat)
    requires d > 0 && v == d * q + r && r < d
    ensures v / d == q && v % d == r
  {
    var k: int := v / d - q;
    assert d * (v / d) == d * q + d * k;
    assert k > 0 ==> d * k >= d;
    assert k < 0 ==> d * k + d <= 0;
  }

  function Value(r: bits): (v: nat)
    ensures v < Pow2(|r|)
    decreases |r|
  {
    if r == [] then 0 else (if r[0] then 1 else 0) + 2 * Value(r[1..])
  }

  lemma {:induction false} ValueOfBits(v: nat, width: nat)
    requires v < Pow2(width)
    ensures Value(BitsOf(v, width)) == v
    decreases width
  {
    if width > 0 {
      ValueOfBits(v / 2, width - 1);
      BitsOfTail(v, width);
      assert BitsOf(v, width)[1..] == BitsOf(v / 2, width - 1);
    }
  }

  lemma {:induction false} BitsOfValue(r: bits)
    ensures BitsOf(Value(r), |r|) == r
    decreases |r|
  {
    if r != [] {
      BitsOfValue(r[1..]);
      var v := Value(r);
      assert v / 2 == Value(r[1..]) && (v % 2 == 1) == r[0];
      BitsOfTail(v, |r|);
      assert r == [r[0]] + r[1..];
    }
  }

  function Zeros(n: nat): (r: bits)
    ensures |r| == n
  {
    seq(n, i => false)
  }

  function Xor(x: bits, y: bits): (r: bits)
    requires |x| == |y|
    ensures |r| == |x|
    ensures forall i :: 0 <= i < |r| ==> r[i] == (x[i] != y[i])
  {
    seq(|x|, i requires 0 <= i < |x| => x[i] != y[i])
  }
}
