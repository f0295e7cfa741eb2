/** Octets as the driver puts them on the SPI bus. */
module Bytes {

  /** One octet. */
  type Byte = x: int | 0 <= x < 256

  /** Python's `x & 0xFF` on an arbitrary, possibly negative, integer: the
      low eight bits of its two's-complement form.  Dafny's `%` is Euclidean,
      so `x % 256` is that value for negative `x` too. */
  function Mask(x: int): (b: Byte)
    ensures (x - b) % 256 == 0
    ensures 0 <= x < 256 ==> b == x
  {
    x % 256
  }

  /** Euclidean division is unique: `q` and `m` are the quotient and
      remainder of `c` by `d` when `c == q * d + m` and `0 <= m < d`. */
  lemma DivModOf(c: int, d: int, q: int, m: int)
    requires d > 0 && 0 <= m < d && c == q * d + m
    ensures c / d == q && c % d == m
  {
    MulSucc(q, d);
    QuotientUnique(c, d, q);
  }

  /** One more factor of `s`. */
  lemma MulSucc(k: int, s: int)
    ensures (k + 1) * s == k * s + s
  {
  }

  /** `q` is the quotient of `a` by `s` when `q * s <= a < (q + 1) * s`. */
  lemma QuotientUnique(a: int, s: int, q: int)
    requires s > 0
    requires q * s <= a < (q + 1) * s
    ensures a / s == q
  {
    var d := a / s;
    assert d * s <= a < (d + 1) * s;
  }

  /** The big-endian pair `[(x >> 8) & 0xFF, x & 0xFF]` the driver sends for a
      16-bit address.  Python's `>>` floors, as Dafny's `/` does for a
      positive divisor. */
  function Split16(x: int): (pair: seq<Byte>)
    ensures |pair| == 2
    ensures (x - Join16(pair)) % 0x10000 == 0
    ensures 0 <= x < 0x10000 ==> Join16(pair) == x
  {
    var hi := Mask(x / 256);
    var lo := Mask(x);
    assert x == (x / 256) * 256 + lo by {
      assert x % 256 == lo;
    }
    assert (x / 256 - hi) % 256 == 0;
    var k := (x / 256 - hi) / 256;
    assert x / 256 == k * 256 + hi;
    assert x - (hi * 256 + lo) == k * 0x10000;
    [hi, lo]
  }

  /** Reads a big-endian pair back as one value, 16 bits wide when both
      are octets. */
  function Join16(pair: seq<int>): (v: int)
    requires |pair| == 2
    ensures 0 <= pair[0] < 256 && 0 <= pair[1] < 256 ==> 0 <= v < 0x10000
  {
    pair[0] * 256 + pair[1]
  }

  /** Splitting a 16-bit value and joining it back is the identity, and
      joining a pair and splitting it back is the identity too. */
  lemma {:induction false} Split16Join16(pair: seq<Byte>)
    requires |pair| == 2
    ensures Split16(Join16(pair)) == pair
  {
    var v := Join16(pair);
    assert v / 256 == pair[0];
    assert v % 256 == pair[1];
  }

  /** Every element masked, as when each value goes through its own scalar `send`. */
  function MaskAll(vs: seq<int>): (bs: seq<Byte>)
    ensures |bs| == |vs|
    ensures forall i :: 0 <= i < |vs| ==> (vs[i] - bs[i]) % 256 == 0
  {
    seq(|vs|, i requires 0 <= i < |vs| => Mask(vs[i]))
  }
}
