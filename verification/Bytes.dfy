/** Bytes, little-endian integers and the width constants shared by the other modules. */
module Bytes {

  type byte = x: nat | x < 256

  const TWO_32: nat := 0x1_0000_0000
  const TWO_63: nat := 0x8000_0000_0000_0000
  const TWO_64: nat := 0x1_0000_0000_0000_0000

  type uint32 = x: nat | x < 0x1_0000_0000
  type uint64 = x: nat | x < 0x1_0000_0000_0000_0000

  function Pow256(n: nat): (r: nat)
    ensures r > 0
  {
    if n == 0 then 1 else 256 * Pow256(n - 1)
  }

  /** The low byte of a value. */
  function LowByte(v: nat): byte {
    v % 256
  }

  /** The `n` low-order bytes of `v`, least significant first: the memory image of an
      unsigned integer field on a little-endian machine. */
  function PutLE(v: nat, n: nat): (s: seq<byte>)
    ensures |s| == n
  {
    if n == 0 then [] else [LowByte(v)] + PutLE(v / 256, n - 1)
  }

  function GetLE(s: seq<byte>): nat {
    if s == [] then 0 else s[0] + 256 * GetLE(s[1..])
  }

  /** Reading back what was written gives the value modulo the field's width. */
  lemma {:induction false} GetPut(v: nat, n: nat)
    ensures GetLE(PutLE(v, n)) == v % Pow256(n)
  {
    if n > 0 {
      GetPut(v / 256, n - 1);
      assert PutLE(v, n)[1..] == PutLE(v / 256, n - 1);
      ModSplit(v, Pow256(n - 1));
    }
  }

  lemma ModSplit(v: nat, p: nat)
    requires p > 0
    ensures v % (256 * p) == v % 256 + 256 * ((v / 256) % p)
  {
    var q, r := (v / 256) / p, (v / 256) % p;
    assert v == 256 * (q * p + r) + v % 256;
    assert v == q * (256 * p) + (256 * r + v % 256);
    assert 256 * r + v % 256 < 256 * p;
    DivModUnique(v, 256 * p, q, 256 * r + v % 256);
  }

  lemma DivModUnique(v: int, d: int, q: int, r: int)
    requires d > 0 && 0 <= r < d && v == q * d + r
    ensures v / d == q && v % d == r
  {
    var q', r' := v / d, v % d;
    assert v == q' * d + r';
    assert (q - q') * d == r' - r;
    if q > q' {
      MulAtLeast(q - q', d);
    } else if q < q' {
      MulAtLeast(q' - q, d);
    }
  }

  lemma MulAtLeast(x: int, d: int)
    requires x >= 1 && d > 0
    ensures x * d >= d
  {
  }

  lemma {:induction false} GetBound(s: seq<byte>)
    ensures GetLE(s) < Pow256(|s|)
  {
    if s != [] {
      GetBound(s[1..]);
      assert Pow256(|s|) == 256 * Pow256(|s| - 1);
    }
  }

  lemma ByteDivision(x: nat, k: nat)
    requires x < 256
    ensures (x + 256 * k) % 256 == x && (x + 256 * k) / 256 == k
  {
  }

  /** Writing back what was read gives the same bytes. */
  lemma {:induction false} PutGet(s: seq<byte>)
    ensures PutLE(GetLE(s), |s|) == s
  {
    if s != [] {
      PutGet(s[1..]);
      ByteDivision(s[0], GetLE(s[1..]));
      assert s == [s[0]] + s[1..];
    }
  }

  lemma FieldWidths()
    ensures Pow256(1) == 256 && Pow256(4) == TWO_32 && Pow256(8) == TWO_64
  {
    assert Pow256(1) == 256;
    assert Pow256(2) == 65536;
    assert Pow256(3) == 0x100_0000;
    assert Pow256(4) == TWO_32;
    assert Pow256(5) == 0x100_0000_0000;
    assert Pow256(6) == 0x1_0000_0000_0000;
    assert Pow256(7) == 0x100_0000_0000_0000;
  }

  lemma Regroup<T>(a: seq<T>, b: seq<T>, c: seq<T>)
    ensures a + (b + c) == a + b + c
  {
  }
}
