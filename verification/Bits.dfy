/** Bytes, and their bits with the lowest first: the order in which fax data is packed. */
module Bits {
  type byte = x: int | 0 <= x < 256

  function Pow2(n: nat): (p: nat)
    ensures p > 0
  {
    if n == 0 then 1 else 2 * Pow2(n - 1)
  }

  /** The `n` lowest bits of `v`, lowest first. */
  function BitsOf(v: nat, n: nat): (bits: seq<bool>)
    ensures |bits| == n
  {
    if n == 0 then [] else [v % 2 == 1] + BitsOf(v / 2, n - 1)
  }

  function Unpack(bytes: seq<byte>): (bits: seq<bool>)
    ensures |bits| == 8 * |bytes|
  {
    if bytes == [] then [] else BitsOf(bytes[0], 8) + Unpack(bytes[1..])
  }

  function Zeros(n: nat): (bits: seq<bool>)
    ensures |bits| == n
  {
    seq(n, _ => false)
  }

  /** The `n` bits shifted into the top of `out` so far, first one lowest. */
  function Shifted(out: byte, n: nat): (bits: seq<bool>)
    requires n <= 8
    ensures |bits| == n
  {
    BitsOf(out, 8)[8 - n..]
  }

  function ShiftIn(out: byte, bit: bool): byte {
    out / 2 + if bit then 128 else 0
  }

  lemma {:induction false} BitsOfTopBit(v: nat, n: nat, bit: bool)
    requires v < Pow2(n)
    ensures BitsOf(v + (if bit then Pow2(n) else 0), n + 1) == BitsOf(v, n) + [bit]
  {
    if n == 0 {
      assert BitsOf(0, 0) == [] && BitsOf(1, 1) == [true] && BitsOf(0, 1) == [false];
    } else {
      var w := v + if bit then Pow2(n) else 0;
      assert w % 2 == v % 2 && w / 2 == v / 2 + if bit then Pow2(n - 1) else 0;
      BitsOfTopBit(v / 2, n - 1, bit);
    }
  }

  lemma Pow2Seven()
    ensures Pow2(7) == 128
  {
    assert Pow2(3) == 8;
    assert Pow2(5) == 32;
  }

  /** The bits of a byte without its lowest one, and a new one at the top. */
  lemma ShiftInBits(out: byte, bit: bool)
    ensures BitsOf(ShiftIn(out, bit), 8) == BitsOf(out, 8)[1..] + [bit]
  {
    Pow2Seven();
    BitsOfTopBit(out / 2, 7, bit);
    assert BitsOf(out, 8) == [out % 2 == 1] + BitsOf(out / 2, 7);
  }

  lemma DropAndAppend(bits: seq<bool>, bit: bool, k: nat)
    requires 0 < k <= |bits|
    ensures (bits[1..] + [bit])[k - 1..] == bits[k..] + [bit]
  {
  }

  /** Shifting a bit in at the top appends it to the bits already there. */
  lemma ShiftInAppends(out: byte, n: nat, bit: bool)
    requires n < 8
    ensures Shifted(ShiftIn(out, bit), n + 1) == Shifted(out, n) + [bit]
  {
    ShiftInBits(out, bit);
    DropAndAppend(BitsOf(out, 8), bit, 8 - n);
  }

  lemma {:induction false} UnpackAppend(a: seq<byte>, b: seq<byte>)
    ensures Unpack(a + b) == Unpack(a) + Unpack(b)
  {
    if a == [] {
      assert a + b == b;
    } else {
      assert (a + b)[1..] == a[1..] + b;
      UnpackAppend(a[1..], b);
    }
  }

  /** A byte that eight bits were shifted into unpacks to them. */
  lemma UnpackFull(bytes: seq<byte>, out: byte)
    ensures Unpack(bytes + [out]) == Unpack(bytes) + Shifted(out, 8)
  {
    UnpackAppend(bytes, [out]);
    var bits := BitsOf(out, 8);
    assert [out][1..] == [] && bits + [] == bits && bits[0..] == bits;
  }

  // ---- packing -------------------------------------------------------------------------------

  function ShiftAll(out: byte, bits: seq<bool>): byte
    decreases |bits|
  {
    if bits == [] then out else ShiftAll(ShiftIn(out, bits[0]), bits[1..])
  }

  /** Bytes from bits, the first one lowest. */
  function Pack(bits: seq<bool>): (bytes: seq<byte>)
    requires |bits| % 8 == 0
    ensures |bytes| == |bits| / 8
  {
    if bits == [] then [] else [ShiftAll(0, bits[..8])] + Pack(bits[8..])
  }

  lemma {:induction false} ShiftAllBack(out: byte, n: nat, bits: seq<bool>)
    requires n + |bits| <= 8
    ensures Shifted(ShiftAll(out, bits), n + |bits|) == Shifted(out, n) + bits
    decreases |bits|
  {
    if bits != [] {
      ShiftInAppends(out, n, bits[0]);
      ShiftAllBack(ShiftIn(out, bits[0]), n + 1, bits[1..]);
      assert Shifted(out, n) + [bits[0]] + bits[1..] == Shifted(out, n) + bits;
    } else {
      assert Shifted(out, n) + bits == Shifted(out, n);
    }
  }

  lemma {:induction false} PackBack(bits: seq<bool>)
    requires |bits| % 8 == 0
    ensures Unpack(Pack(bits)) == bits
    decreases |bits|
  {
    if bits != [] {
      var out := ShiftAll(0, bits[..8]);
      ShiftAllBack(0, 0, bits[..8]);
      PackBack(bits[8..]);
      assert Shifted(0, 0) + bits[..8] == bits[..8] && BitsOf(out, 8)[0..] == BitsOf(out, 8);
      assert Pack(bits)[0] == out && Pack(bits)[1..] == Pack(bits[8..]);
      assert bits == bits[..8] + bits[8..];
    }
  }
}
