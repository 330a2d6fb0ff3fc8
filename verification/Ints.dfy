/** Fixed-width integers, C++ narrowing casts, and little-endian byte strings. */
module Ints {

  type u8 = x: int | 0 <= x < 0x100
  type u16 = x: int | 0 <= x < 0x1_0000
  type u32 = x: int | 0 <= x < 0x1_0000_0000
  type u64 = x: int | 0 <= x < 0x1_0000_0000_0000_0000
  type i8 = x: int | -0x80 <= x < 0x80
  type i16 = x: int | -0x8000 <= x < 0x8000
  type i32 = x: int | -0x8000_0000 <= x < 0x8000_0000

  const U64_MAX: u64 := 0xFFFF_FFFF_FFFF_FFFF

  type bytes = seq<u8>

  type Wallet = w: bytes | |w| == 32 witness seq(32, _ => 0)
  type Hash16 = h: bytes | |h| == 16 witness seq(16, _ => 0)

  datatype Option<+T> = None | Some(value: T)

  // Narrowing casts: the value modulo 2^n, read as unsigned or as two's complement.

  function WrapU8(x: int): u8 { x % 0x100 }

  function WrapU16(x: int): u16 { x % 0x1_0000 }

  function WrapU32(x: int): u32 { x % 0x1_0000_0000 }

  function WrapU64(x: int): u64 { x % 0x1_0000_0000_0000_0000 }

  function WrapI8(x: int): i8 { var u := x % 0x100; if u < 0x80 then u else u - 0x100 }

  function WrapI16(x: int): i16 { var u := x % 0x1_0000; if u < 0x8000 then u else u - 0x1_0000 }

  function WrapI32(x: int): i32 { var u := x % 0x1_0000_0000; if u < 0x8000_0000 then u else u - 0x1_0000_0000 }

  /** C++ integer division truncates toward zero. */
  function TruncDiv(value: int, divisor: int): int
    requires divisor > 0
  {
    if value >= 0 then value / divisor else -((-value) / divisor)
  }

  function TruncMod(value: int, divisor: int): int
    requires divisor > 0
  {
    value - TruncDiv(value, divisor) * divisor
  }

  // ---------------------------------------------------------------- bytes

  function Pow256(n: nat): nat {
    if n == 0 then 1 else 256 * Pow256(n - 1)
  }

  /** The n low-order bytes of v, least significant first. */
  function LE(v: nat, n: nat): (s: bytes)
    ensures |s| == n
  {
    if n == 0 then [] else [v % 256] + LE(v / 256, n - 1)
  }

  function FromLE(s: bytes): (v: nat)
    ensures v < Pow256(|s|)
  {
    if s == [] then 0 else s[0] + 256 * FromLE(s[1..])
  }

  lemma Pow256Values()
    ensures Pow256(1) == 0x100 && Pow256(2) == 0x1_0000 && Pow256(4) == 0x1_0000_0000
    ensures Pow256(8) == 0x1_0000_0000_0000_0000
  {
    assert Pow256(2) == 256 * Pow256(1);
    assert Pow256(3) == 256 * Pow256(2);
    assert Pow256(4) == 256 * Pow256(3);
    assert Pow256(5) == 256 * Pow256(4);
    assert Pow256(6) == 256 * Pow256(5);
    assert Pow256(7) == 256 * Pow256(6);
    assert Pow256(8) == 256 * Pow256(7);
  }

  /** Reading back what was written gives the value, for every value that fits. */
  lemma {:induction false} ReadWrite(v: nat, n: nat)
    requires v < Pow256(n)
    ensures FromLE(LE(v, n)) == v
  {
    if n > 0 {
      ReadWrite(v / 256, n - 1);
      assert LE(v, n)[1..] == LE(v / 256, n - 1);
    }
  }

  /** Writing what was read gives the bytes back. */
  lemma {:induction false} WriteRead(s: bytes)
    ensures LE(FromLE(s), |s|) == s
  {
    if s != [] {
      var rest := FromLE(s[1..]);
      WriteRead(s[1..]);
      assert (s[0] + 256 * rest) % 256 == s[0] && (s[0] + 256 * rest) / 256 == rest;
    }
  }

  // Fixed-width readers and writers.

  function W16(v: u16): (s: bytes) ensures |s| == 2 { LE(v, 2) }

  function W32(v: u32): (s: bytes) ensures |s| == 4 { LE(v, 4) }

  function W64(v: u64): (s: bytes) ensures |s| == 8 { LE(v, 8) }

  function WI32(v: i32): (s: bytes) ensures |s| == 4 { W32(WrapU32(v)) }

  function WI16(v: i16): (s: bytes) ensures |s| == 2 { W16(WrapU16(v)) }

  function R16(s: bytes): u16 requires |s| == 2 { Pow256Values(); FromLE(s) }

  function R32(s: bytes): u32 requires |s| == 4 { Pow256Values(); FromLE(s) }

  function R64(s: bytes): u64 requires |s| == 8 { Pow256Values(); FromLE(s) }

  function RI32(s: bytes): i32 requires |s| == 4 { WrapI32(R32(s)) }

  function RI16(s: bytes): i16 requires |s| == 2 { WrapI16(R16(s)) }

  lemma WrapInverse16(v: u16, i: i16)
    ensures WrapU16(WrapI16(v)) == v && WrapI16(WrapU16(i)) == i
  {
  }

  lemma WrapInverse32(v: u32, i: i32)
    ensures WrapU32(WrapI32(v)) == v && WrapI32(WrapU32(i)) == i
  {
  }

  lemma Inverse16(v: u16, i: i16)
    ensures R16(W16(v)) == v && RI16(WI16(i)) == i
  {
    hide LE, FromLE, WrapU16, WrapI16;
    Pow256Values();
    ReadWrite(v, 2);
    ReadWrite(WrapU16(i), 2);
    WrapInverse16(v, i);
  }

  lemma Inverse32(v: u32, i: i32)
    ensures R32(W32(v)) == v && RI32(WI32(i)) == i
  {
    hide LE, FromLE, WrapU32, WrapI32;
    Pow256Values();
    ReadWrite(v, 4);
    ReadWrite(WrapU32(i), 4);
    WrapInverse32(v, i);
  }

  lemma Inverse64(v: u64)
    ensures R64(W64(v)) == v
  {
    Pow256Values();
    ReadWrite(v, 8);
  }

  lemma Rewrite16(s: bytes)
    requires |s| == 2
    ensures W16(R16(s)) == s && WI16(RI16(s)) == s
  {
    hide LE, FromLE, WrapU16, WrapI16;
    WriteRead(s);
    WrapInverse16(R16(s), 0);
  }

  lemma Rewrite32(s: bytes)
    requires |s| == 4
    ensures W32(R32(s)) == s && WI32(RI32(s)) == s
  {
    hide LE, FromLE, WrapU32, WrapI32;
    WriteRead(s);
    WrapInverse32(R32(s), 0);
  }

  lemma Rewrite64(s: bytes)
    requires |s| == 8
    ensures W64(R64(s)) == s
  {
    WriteRead(s);
  }

  function Min(a: int, b: int): int { if a <= b then a else b }

  lemma SubsetSize<T>(a: set<T>, b: set<T>)
    requires a <= b
    ensures |a| <= |b|
  {
    assert b == a + (b - a);
  }
}
