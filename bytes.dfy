/**
  Machine integers and the big-endian byte order of Go's `encoding/binary`.
  Go's `int` is 64 bits wide here; `uint64(i)` reinterprets its two's complement bits.
*/
module Bytes {

  /** Go's `byte` (`uint8`). */
  newtype byte = x: int | 0 <= x < 256

  const MinInt64: int := -0x8000_0000_0000_0000
  const MaxInt64: int := 0x7FFF_FFFF_FFFF_FFFF
  const Two64: int := 0x1_0000_0000_0000_0000

  /** Go's 64-bit `int`. */
  type int64 = x: int | MinInt64 <= x <= MaxInt64

  /** 256 to the power n. */
  function Pow256(n: nat): (p: nat)
    ensures p > 0
  {
    if n == 0 then 1 else 256 * Pow256(n - 1)
  }

  /** Go's conversion `uint64(i)`: the value whose 64 bits are the two's complement bits of `i`. */
  function ToUint64(i: int64): (u: nat)
    ensures u < Two64
    ensures i >= 0 ==> u == i
    ensures i < 0 ==> u == i + Two64
  {
    i % Two64
  }

  /** The n low-order bytes of `u`, most significant first. */
  function BigEndian(u: nat, n: nat): (b: seq<byte>)
    ensures |b| == n
  {
    if n == 0 then [] else BigEndian(u / 256, n - 1) + [(u % 256) as byte]
  }

  /** The number a big-endian byte string denotes. */
  function BigEndianValue(b: seq<byte>): nat
  {
    if b == [] then 0 else BigEndianValue(b[..|b| - 1]) * 256 + b[|b| - 1] as int
  }

  /** Reading back what BigEndian wrote gives the number, as long as it fits in n bytes. */
  lemma {:induction false} BigEndianRoundTrip(u: nat, n: nat)
    requires u < Pow256(n)
    ensures BigEndianValue(BigEndian(u, n)) == u
  {
    if n > 0 {
      var b := BigEndian(u, n);
      var q, r := u / 256, u % 256;
      assert u == q * 256 + r;
      assert q < Pow256(n - 1);
      assert b[..n - 1] == BigEndian(q, n - 1);
      BigEndianRoundTrip(q, n - 1);
      assert BigEndianValue(b) == BigEndianValue(b[..n - 1]) * 256 + r;
    }
  }

  /** Two's complement is injective: distinct counters are written as distinct 8-byte messages. */
  lemma DistinctCountersDistinctMessages(i: int64, j: int64)
    requires i != j
    ensures BigEndian(ToUint64(i), 8) != BigEndian(ToUint64(j), 8)
  {
    assert Pow256(8) == Two64;
    BigEndianRoundTrip(ToUint64(i), 8);
    BigEndianRoundTrip(ToUint64(j), 8);
  }

  /** `binary.BigEndian.Uint32`: the four bytes read as an unsigned big-endian number. */
  function Uint32(c: seq<byte>): (v: nat)
    requires |c| == 4
    ensures v < 0x1_0000_0000
    ensures c[0] < 0x80 ==> v < 0x8000_0000
  {
    (c[0] as int) * 0x100_0000 + (c[1] as int) * 0x1_0000 + (c[2] as int) * 0x100 + c[3] as int
  }

  /** Uint32 agrees with the general big-endian reading of a byte string. */
  lemma Uint32IsBigEndianValue(c: seq<byte>)
    requires |c| == 4
    ensures Uint32(c) == BigEndianValue(c)
  {
    assert c[..3][..2][..1][..0] == [];
    assert BigEndianValue(c[..3][..2][..1]) == c[0] as int;
    assert BigEndianValue(c[..3][..2]) == (c[0] as int) * 256 + c[1] as int;
    assert BigEndianValue(c[..3]) == ((c[0] as int) * 256 + c[1] as int) * 256 + c[2] as int;
  }

  /**
    `binary.BigEndian.PutUint64(b, v)`: stores the eight bytes of `v` into `b`,
    least significant byte last.
  */
  method PutUint64(b: array<byte>, v: nat)
    requires b.Length == 8 && v < Two64
    modifies b
    ensures b[..] == BigEndian(v, 8)
  {
    var rest := v;
    var k := 0;
    while k < 8
      invariant 0 <= k <= 8
      invariant BigEndian(v, 8) == BigEndian(rest, 8 - k) + b[8 - k..]
    {
      b[7 - k] := (rest % 256) as byte;
      rest := rest / 256;
      k := k + 1;
    }
    assert b[8 - k..] == b[..];
  }

  /** Go's wrap-around of an `int` result: the 64-bit value congruent to `x`. */
  function Wrap64(x: int): (r: int64)
    ensures (r - x) % Two64 == 0
    ensures MinInt64 <= x <= MaxInt64 ==> r == x
  {
    var m := x % Two64;
    if m > MaxInt64 then m - Two64 else m
  }
}
