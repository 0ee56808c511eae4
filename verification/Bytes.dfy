/** Bytes, and the big-endian numbers in which every header of the system is written. */
module Bytes {
  newtype byte = x: int | 0 <= x < 256
  type Bytes = seq<byte>

  const TWO32: nat := 0x1_0000_0000
  type uint32 = x: nat | x < TWO32

  function Power256(k: nat): (p: nat)
    ensures p > 0
  {
    if k == 0 then 1 else 256 * Power256(k - 1)
  }

  // The `k` low-order bytes of `v`, most significant first.
  function PutBigEndian(v: nat, k: nat): (b: Bytes)
    ensures |b| == k
  {
    if k == 0 then [] else PutBigEndian(v / 256, k - 1) + [(v % 256) as byte]
  }

  function BigEndian(b: Bytes): nat
  {
    if b == [] then 0 else 256 * BigEndian(b[..|b| - 1]) + b[|b| - 1] as nat
  }

  lemma {:induction false} BigEndianOfPut(v: nat, k: nat)
    requires v < Power256(k)
    ensures BigEndian(PutBigEndian(v, k)) == v
  {
    if k > 0 {
      var high, low := LowByte(v, k);
      assert PutBigEndian(v, k) == PutBigEndian(high, k - 1) + [low as byte];
      hide BigEndian, PutBigEndian, Power256;
      BigEndianOfPut(high, k - 1);
      BigEndianAppend(PutBigEndian(high, k - 1), low as byte);
    }
  }

  lemma LowByte(v: nat, k: nat) returns (high: nat, low: nat)
    requires k > 0 && v < Power256(k)
    ensures high == v / 256 && low == v % 256 && low < 256
    ensures high < Power256(k - 1) && v == 256 * high + low
  {
    high, low := v / 256, v % 256;
  }

  lemma BigEndianAppend(b: Bytes, low: byte)
    ensures BigEndian(b + [low]) == 256 * BigEndian(b) + low as nat
  {
    assert (b + [low])[..|b|] == b;
  }

  lemma {:induction false} PutOfBigEndian(b: Bytes)
    ensures BigEndian(b) < Power256(|b|)
    ensures PutBigEndian(BigEndian(b), |b|) == b
  {
    if b != [] {
      PutOfBigEndian(b[..|b| - 1]);
    }
  }

  lemma Power256Values()
    ensures Power256(1) == 0x100 && Power256(2) == 0x1_0000
    ensures Power256(4) == TWO32 && Power256(8) == TWO32 * TWO32
  {}

  function PutUint32(v: uint32): (b: Bytes)
    ensures |b| == 4
  {
    PutBigEndian(v, 4)
  }

  function Uint32(b: Bytes): uint32
    requires |b| == 4
  {
    PutOfBigEndian(b);
    Power256Values();
    BigEndian(b)
  }

  // Most significant byte first.
  lemma Uint32Bytes(v: uint32)
    ensures PutUint32(v) == [(v / 0x100_0000) as byte, (v / 0x1_0000 % 0x100) as byte, (v / 0x100 % 0x100) as byte,
                             (v % 0x100) as byte]
  {
    var a, b, c := v / 256, v / 256 / 256, v / 256 / 256 / 256;
    assert b == v / 0x1_0000 && c == v / 0x100_0000;
    assert PutBigEndian(c, 1) == [(c % 256) as byte] by { assert PutBigEndian(c / 256, 0) == []; }
    assert PutBigEndian(b, 2) == PutBigEndian(c, 1) + [(b % 256) as byte];
    assert PutBigEndian(a, 3) == PutBigEndian(b, 2) + [(a % 256) as byte];
    assert PutBigEndian(v, 4) == PutBigEndian(a, 3) + [(v % 256) as byte];
  }

  lemma Uint32OfPut(v: uint32)
    ensures Uint32(PutUint32(v)) == v
  {
    Power256Values();
    BigEndianOfPut(v, 4);
  }

  lemma Assoc(a: Bytes, b: Bytes, c: Bytes)
    ensures a + b + c == a + (b + c)
  {}
}
