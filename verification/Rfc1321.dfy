/** MD5 as sections 3.1 to 3.5 of RFC 1321 describe it: the message is padded as a whole, and
    64 operations [abcd k s i] update four named registers in place. */
module Rfc1321 {
  import opened Bytes
  import Md5

  // Sections 3.1 and 3.2: a one bit, zeros up to 56 modulo 64, then the bit length as
  // 64 bits, low-order word (and byte) first.

  function ZeroCount(n: nat): (z: nat)
    ensures (n + 1 + z) % 64 == 56
    ensures z < 64
  {
    (119 - n % 64) % 64
  }

  function LengthField(n: nat): (f: seq<byte>)
    ensures |f| == 8
  {
    PutLE(8 * n % TWO_64, 8)
  }

  function Zeros(z: nat): (s: seq<byte>)
    ensures |s| == z && forall i :: 0 <= i < z ==> s[i] == 0
  {
    seq(z, _ => 0)
  }

  function Pad(message: seq<byte>): seq<byte> {
    message + [0x80] + Zeros(ZeroCount(|message|)) + LengthField(|message|)
  }

  /** Word `j` of block `i`: four bytes, low-order byte first. */
  function Word(padded: seq<byte>, i: nat, j: nat): bv32
    requires j < 16 && 64 * i + 64 <= |padded|
  {
    var p := 64 * i + 4 * j;
    SumBytes(Md5.Wide(padded[p]), Md5.Wide(padded[p + 1]), Md5.Wide(padded[p + 2]), Md5.Wide(padded[p + 3]))
  }

  function SumBytes(b0: bv32, b1: bv32, b2: bv32, b3: bv32): bv32 {
    b0 + b1 * 0x100 + b2 * 0x1_0000 + b3 * 0x100_0000
  }

  function Block(padded: seq<byte>, i: nat): Md5.RoundData
    requires 64 * i + 64 <= |padded|
  {
    seq(16, j requires 0 <= j < 16 => Word(padded, i, j))
  }

  // Section 3.4: the four auxiliary functions and the four rounds.

  function F(x: bv32, y: bv32, z: bv32): bv32 { (x & y) | (!x & z) }

  function G(x: bv32, y: bv32, z: bv32): bv32 { (x & z) | (y & !z) }

  function H(x: bv32, y: bv32, z: bv32): bv32 { x ^ y ^ z }

  function I(x: bv32, y: bv32, z: bv32): bv32 { y ^ (x | !z) }

  /** The order in which an operation names the registers. */
  datatype Order = Abcd | Dabc | Cdab | Bcda {
    /** The register in the operation's first position; the others follow cyclically. */
    function First(): nat {
      match this
      case Abcd => 0
      case Dabc => 3
      case Cdab => 2
      case Bcda => 1
    }
  }

  /** [abcd k s i]: a = b + ((a + f(b,c,d) + X[k] + T[i]) <<< s). The rotation
      `<<<` is Md5.LeftRotate, which Md5Conformance.RotationIsCircular pins down. */
  datatype Op = Op(order: Order, k: nat, s: bv32, i: nat)

  function Round1(): seq<Op> {
    [
      Op(Abcd, 0, 7, 1), Op(Dabc, 1, 12, 2), Op(Cdab, 2, 17, 3), Op(Bcda, 3, 22, 4),
      Op(Abcd, 4, 7, 5), Op(Dabc, 5, 12, 6), Op(Cdab, 6, 17, 7), Op(Bcda, 7, 22, 8),
      Op(Abcd, 8, 7, 9), Op(Dabc, 9, 12, 10), Op(Cdab, 10, 17, 11), Op(Bcda, 11, 22, 12),
      Op(Abcd, 12, 7, 13), Op(Dabc, 13, 12, 14), Op(Cdab, 14, 17, 15), Op(Bcda, 15, 22, 16)
    ]
  }

  function Round2(): seq<Op> {
    [
      Op(Abcd, 1, 5, 17), Op(Dabc, 6, 9, 18), Op(Cdab, 11, 14, 19), Op(Bcda, 0, 20, 20),
      Op(Abcd, 5, 5, 21), Op(Dabc, 10, 9, 22), Op(Cdab, 15, 14, 23), Op(Bcda, 4, 20, 24),
      Op(Abcd, 9, 5, 25), Op(Dabc, 14, 9, 26), Op(Cdab, 3, 14, 27), Op(Bcda, 8, 20, 28),
      Op(Abcd, 13, 5, 29), Op(Dabc, 2, 9, 30), Op(Cdab, 7, 14, 31), Op(Bcda, 12, 20, 32)
    ]
  }

  function Round3(): seq<Op> {
    [
      Op(Abcd, 5, 4, 33), Op(Dabc, 8, 11, 34), Op(Cdab, 11, 16, 35), Op(Bcda, 14, 23, 36),
      Op(Abcd, 1, 4, 37), Op(Dabc, 4, 11, 38), Op(Cdab, 7, 16, 39), Op(Bcda, 10, 23, 40),
      Op(Abcd, 13, 4, 41), Op(Dabc, 0, 11, 42), Op(Cdab, 3, 16, 43), Op(Bcda, 6, 23, 44),
      Op(Abcd, 9, 4, 45), Op(Dabc, 12, 11, 46), Op(Cdab, 15, 16, 47), Op(Bcda, 2, 23, 48)
    ]
  }

  function Round4(): seq<Op> {
    [
      Op(Abcd, 0, 6, 49), Op(Dabc, 7, 10, 50), Op(Cdab, 14, 15, 51), Op(Bcda, 5, 21, 52),
      Op(Abcd, 12, 6, 53), Op(Dabc, 3, 10, 54), Op(Cdab, 10, 15, 55), Op(Bcda, 1, 21, 56),
      Op(Abcd, 8, 6, 57), Op(Dabc, 15, 10, 58), Op(Cdab, 6, 15, 59), Op(Bcda, 13, 21, 60),
      Op(Abcd, 4, 6, 61), Op(Dabc, 11, 10, 62), Op(Cdab, 2, 15, 63), Op(Bcda, 9, 21, 64)
    ]
  }

  /** The table T of section 3.4, round by round; SineTable says what its elements are. */
  function T(i: nat): bv32
    requires 1 <= i <= 64
  {
    if i <= 16 then (
      match i
      case 1 => 0xd76aa478
      case 2 => 0xe8c7b756
      case 3 => 0x242070db
      case 4 => 0xc1bdceee
      case 5 => 0xf57c0faf
      case 6 => 0x4787c62a
      case 7 => 0xa8304613
      case 8 => 0xfd469501
      case 9 => 0x698098d8
      case 10 => 0x8b44f7af
      case 11 => 0xffff5bb1
      case 12 => 0x895cd7be
      case 13 => 0x6b901122
      case 14 => 0xfd987193
      case 15 => 0xa679438e
      case _ => 0x49b40821
    )
    else if i <= 32 then (
      match i
      case 17 => 0xf61e2562
      case 18 => 0xc040b340
      case 19 => 0x265e5a51
      case 20 => 0xe9b6c7aa
      case 21 => 0xd62f105d
      case 22 => 0x02441453
      case 23 => 0xd8a1e681
      case 24 => 0xe7d3fbc8
      case 25 => 0x21e1cde6
      case 26 => 0xc33707d6
      case 27 => 0xf4d50d87
      case 28 => 0x455a14ed
      case 29 => 0xa9e3e905
      case 30 => 0xfcefa3f8
      case 31 => 0x676f02d9
      case _ => 0x8d2a4c8a
    )
    else if i <= 48 then (
      match i
      case 33 => 0xfffa3942
      case 34 => 0x8771f681
      case 35 => 0x6d9d6122
      case 36 => 0xfde5380c
      case 37 => 0xa4beea44
      case 38 => 0x4bdecfa9
      case 39 => 0xf6bb4b60
      case 40 => 0xbebfbc70
      case 41 => 0x289b7ec6
      case 42 => 0xeaa127fa
      case 43 => 0xd4ef3085
      case 44 => 0x04881d05
      case 45 => 0xd9d4d039
      case 46 => 0xe6db99e5
      case 47 => 0x1fa27cf8
      case _ => 0xc4ac5665
    )
    else (
      match i
      case 49 => 0xf4292244
      case 50 => 0x432aff97
      case 51 => 0xab9423a7
      case 52 => 0xfc93a039
      case 53 => 0x655b59c3
      case 54 => 0x8f0ccc92
      case 55 => 0xffeff47d
      case 56 => 0x85845dd1
      case 57 => 0x6fa87e4f
      case 58 => 0xfe2ce6e0
      case 59 => 0xa3014314
      case 60 => 0x4e0811a1
      case 61 => 0xf7537e82
      case 62 => 0xbd3af235
      case 63 => 0x2ad7d2bb
      case _ => 0xeb86d391
    )
  }

  type Registers = r: seq<bv32> | |r| == 4 witness [0, 0, 0, 0]

  function Auxiliary(i: nat, b: bv32, c: bv32, d: bv32): bv32 {
    if i <= 16 then F(b, c, d)
    else if i <= 32 then G(b, c, d)
    else if i <= 48 then H(b, c, d)
    else I(b, c, d)
  }

  ghost predicate WellFormed(op: Op) {
    op.k < 16 && 0 < op.s < 32 && 1 <= op.i <= 64
  }

  function Sum(a: bv32, f: bv32, word: bv32, t: bv32): bv32 {
    a + f + word + t
  }

  function OperationValue(op: Op, x: Md5.RoundData, a: bv32, b: bv32, c: bv32, d: bv32): bv32
    requires WellFormed(op)
  {
    Md5.Turn(b, Sum(a, Auxiliary(op.i, b, c, d), x[op.k], T(op.i)), op.s)
  }

  /** One operation, done in place on the named registers. */
  function Operate(op: Op, x: Md5.RoundData, r: Registers): Registers
    requires WellFormed(op)
  {
    var a := op.order.First();
    r[a := OperationValue(op, x, r[a], r[(a + 1) % 4], r[(a + 2) % 4], r[(a + 3) % 4])]
  }

  function Operations(ops: seq<Op>, x: Md5.RoundData, r: Registers): Registers
    requires forall op :: op in ops ==> WellFormed(op)
  {
    if ops == [] then r
    else Operate(ops[|ops| - 1], x, Operations(ops[..|ops| - 1], x, r))
  }

  function Accumulate(r: Registers, saved: Registers): Registers {
    [r[0] + saved[0], r[1] + saved[1], r[2] + saved[2], r[3] + saved[3]]
  }

  /** The registers after the first `n` blocks (section 3.4, including the final additions). */
  function Process(padded: seq<byte>, n: nat): Registers
    requires 64 * n <= |padded|
  {
    if n == 0 then [0x67452301, 0xefcdab89, 0x98badcfe, 0x10325476]
    else
      var saved := Process(padded, n - 1);
      RoundsAreWellFormed();
      Accumulate(Operations(AllRounds(), Block(padded, n - 1), saved), saved)
  }

  /** The four bytes of a register, low-order byte first (section 3.5). */
  function Output(r: bv32): seq<byte> {
    [Md5.Narrow(r), Md5.Narrow(r >> 8), Md5.Narrow(r >> 16), Md5.Narrow(r >> 24)]
  }

  function Digest(message: seq<byte>): (d: seq<byte>)
    ensures |d| == 16
  {
    var r := Process(Pad(message), |Pad(message)| / 64);
    Output(r[0]) + Output(r[1]) + Output(r[2]) + Output(r[3])
  }

  lemma Round1IsWellFormed()
    ensures forall op :: op in Round1() ==> WellFormed(op)
  {
  }

  lemma Round2IsWellFormed()
    ensures forall op :: op in Round2() ==> WellFormed(op)
  {
  }

  lemma Round3IsWellFormed()
    ensures forall op :: op in Round3() ==> WellFormed(op)
  {
  }

  lemma Round4IsWellFormed()
    ensures forall op :: op in Round4() ==> WellFormed(op)
  {
  }

  lemma RoundsAreWellFormed()
    ensures forall op :: op in AllRounds() ==> WellFormed(op)
  {
    Round1IsWellFormed();
    Round2IsWellFormed();
    Round3IsWellFormed();
    Round4IsWellFormed();
  }

  function AllRounds(): (ops: seq<Op>)
    ensures |ops| == 64
  {
    Round1() + Round2() + Round3() + Round4()
  }
}
