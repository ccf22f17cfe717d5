/** The source's MD5 against RFC 1321, and the algebra of its padding and mixing steps. */
module Md5Conformance {
  import opened Bytes
  import opened Md5
  import Rfc1321

  // Padding.

  lemma {:induction false} ExtractIsPut(v: nat, n: nat, i: nat)
    requires i < n
    ensures PutLE(v, n)[i] == ExtractByte(v, i)
  {
    if i > 0 {
      ExtractIsPut(v / 256, n - 1, i - 1);
    }
  }

  lemma PadLength(data: seq<byte>)
    ensures |Rfc1321.Pad(data)| == |data| + 9 + Rfc1321.ZeroCount(|data|)
  {
  }

  lemma LengthArithmetic(n: uint32)
    ensures n < TWO_32 - 72 ==> PaddedLength(n) == n + 9 + Rfc1321.ZeroCount(n)
    ensures n >= TWO_32 - 72 ==> PaddedLength(n) < n
  {
  }

  /** No shorter multiple of 64 has room for the marker byte and the length field. */
  lemma PaddingIsMinimal(n: uint32, other: nat)
    requires n < TWO_32 - 72
    ensures PaddedLength(n) % 64 == 0 && PaddedLength(n) >= n + 9
    ensures other % 64 == 0 && other >= n + 9 ==> PaddedLength(n) <= other
  {
  }

  lemma PaddedLengthIsRfc(data: Message)
    ensures |data| < TWO_32 - 72 ==> PaddedLength(|data|) == |Rfc1321.Pad(data)|
    ensures |data| >= TWO_32 - 72 ==> PaddedLength(|data|) < |Rfc1321.Pad(data)|
  {
    PadLength(data);
    LengthArithmetic(|data|);
  }

  ghost predicate PaddingConforms(data: Message) {
    var m := PaddedLength(|data|);
    && m == |Rfc1321.Pad(data)|
    && forall i :: 0 <= i < m ==> PaddedByte(data, m, i) == Rfc1321.Pad(data)[i]
  }

  lemma BitLengthFits(n: uint32)
    ensures 8 * n % TWO_64 == 8 * n
  {
  }

  lemma LengthFieldByte(n: uint32, j: nat)
    requires j < 8
    ensures Rfc1321.LengthField(n)[j] == ExtractByte(8 * n, j)
  {
    BitLengthFits(n);
    ExtractIsPut(8 * n, 8, j);
  }

  lemma PartsByPosition(a: seq<byte>, b: byte, z: seq<byte>, f: seq<byte>, i: nat)
    requires i < |a| + 1 + |z| + |f|
    ensures (a + [b] + z + f)[i] ==
      if i < |a| then a[i]
      else if i == |a| then b
      else if i >= |a| + 1 + |z| then f[i - (|a| + 1 + |z|)]
      else z[i - |a| - 1]
  {
  }

  /** The parts of the RFC's padded message, by position. */
  lemma PadParts(data: Message, i: nat)
    requires i < |Rfc1321.Pad(data)|
    ensures var n, m := |data|, |Rfc1321.Pad(data)|;
      Rfc1321.Pad(data)[i] ==
        if i < n then data[i]
        else if i == n then 0x80
        else if i >= m - 8 then ExtractByte(8 * n, i - (m - 8))
        else 0
  {
    PadLength(data);
    var n, m := |data|, |Rfc1321.Pad(data)|;
    PartsByPosition(data, 0x80, Rfc1321.Zeros(Rfc1321.ZeroCount(n)), Rfc1321.LengthField(n), i);
    if i >= m - 8 {
      LengthFieldByte(n, i - (m - 8));
    }
  }

  lemma ShortBitLength(n: nat)
    requires n < 0x2000_0000
    ensures (n * 8) % TWO_32 == 8 * n
  {
  }

  lemma LazyByteIsRfcByte(data: Message, i: nat)
    requires |data| < 0x2000_0000 && i < PaddedLength(|data|)
    ensures i < |Rfc1321.Pad(data)| && PaddedByte(data, PaddedLength(|data|), i) == Rfc1321.Pad(data)[i]
  {
    PaddedLengthIsRfc(data);
    PadParts(data, i);
    ShortBitLength(|data|);
  }

  lemma FifthByte(v: nat)
    ensures ExtractByte(v, 4) == LowByte(v / 256 / 256 / 256 / 256)
  {
    assert ExtractByte(v, 4) == ExtractByte(v / 256, 3);
    assert ExtractByte(v / 256, 3) == ExtractByte(v / 256 / 256, 2);
    assert ExtractByte(v / 256 / 256, 2) == ExtractByte(v / 256 / 256 / 256, 1);
    assert ExtractByte(v / 256 / 256 / 256, 1) == ExtractByte(v / 256 / 256 / 256 / 256, 0);
  }

  lemma HighLengthByte(v: nat)
    requires v < 0x8_0000_0000
    ensures ExtractByte(v % TWO_32, 4) == 0
    ensures v >= TWO_32 ==> ExtractByte(v, 4) != 0
  {
    var x := v % TWO_32;
    FifthByte(x);
    FifthByte(v);
    assert x / 256 / 256 / 256 / 256 == 0;
    var h := v / 256 / 256 / 256 / 256;
    assert h < 256 && (v >= TWO_32 ==> h > 0);
  }

  /** The 32-bit `n * 8` is the exact limit: the padding is the RFC's iff n < 2^29. */
  lemma PaddingConformsExactly(data: Message)
    ensures PaddingConforms(data) <==> |data| < 0x2000_0000
  {
    PaddedLengthIsRfc(data);
    var m := PaddedLength(|data|);
    if |data| < 0x2000_0000 {
      forall i | 0 <= i < m ensures PaddedByte(data, m, i) == Rfc1321.Pad(data)[i] {
        LazyByteIsRfcByte(data, i);
      }
    } else if |data| < TWO_32 - 72 {
      PadParts(data, m - 4);
      HighLengthByte(8 * |data|);
      assert PaddedByte(data, m, m - 4) != Rfc1321.Pad(data)[m - 4];
    }
  }

  // Bytes and their bit patterns.

  // The conversion of a byte to bits and back, range by range: each range is quick.

  lemma LowBitsValue(b: int)
    requires 0 <= b < 128
    ensures (b as bv8) as int == b
  {
    if b < 64 {
      if b < 32 { if b < 16 {} else {} } else { if b < 48 {} else {} }
    } else {
      if b < 96 { if b < 80 {} else {} } else { if b < 112 {} else {} }
    }
  }

  lemma HighBitsValue(b: int)
    requires 128 <= b < 256
    ensures (b as bv8) as int == b
  {
    if b < 192 {
      if b < 160 { if b < 144 {} else {} } else { if b < 176 {} else {} }
    } else {
      if b < 224 { if b < 208 {} else {} } else { if b < 240 {} else {} }
    }
  }

  lemma BitsValue(b: byte)
    ensures Value(Bits(b)) == b
  {
    assert Bits(b) == b as bv8;
    if b < 128 {
      LowBitsValue(b);
    } else {
      HighBitsValue(b);
    }
  }

  lemma ValueBits(x: bv8)
    ensures Bits(Value(x)) == x
  {
  }

  lemma WideIsSmall(b: byte)
    ensures Wide(b) <= 0xff
  {
  }

  lemma LowBitsOfWide(x: bv8)
    ensures LowBits(x as bv32) == x
  {
  }

  lemma WideOfLowBits(w: bv32)
    ensures LowBits(w) as bv32 == w & 0xff
  {
  }

  lemma NarrowWide(b: byte)
    ensures Narrow(Wide(b)) == b
  {
    LowBitsOfWide(Bits(b));
    BitsValue(b);
  }

  lemma WideNarrow(w: bv32)
    ensures Wide(Narrow(w)) == w & 0xff
  {
    ValueBits(LowBits(w));
    WideOfLowBits(w);
  }

  lemma OrIsSum(b0: bv32, b1: bv32, b2: bv32, b3: bv32)
    requires b0 <= 0xff && b1 <= 0xff && b2 <= 0xff && b3 <= 0xff
    ensures OrBytes(b0, b1, b2, b3) == Rfc1321.SumBytes(b0, b1, b2, b3)
  {
  }

  /** Or-ing shifted bytes is the RFC's positional value. */
  lemma WordAsSum(b0: byte, b1: byte, b2: byte, b3: byte)
    ensures AssembleWord(b0, b1, b2, b3) == Rfc1321.SumBytes(Wide(b0), Wide(b1), Wide(b2), Wide(b3))
  {
    WideIsSmall(b0);
    WideIsSmall(b1);
    WideIsSmall(b2);
    WideIsSmall(b3);
    OrIsSum(Wide(b0), Wide(b1), Wide(b2), Wide(b3));
  }

  lemma BlocksConform(data: Message, i: nat)
    requires |data| < 0x2000_0000 && 64 * i + 64 <= PaddedLength(|data|)
    ensures |Rfc1321.Pad(data)| == PaddedLength(|data|)
    ensures GetRoundData(data, PaddedLength(|data|), 64 * i) == Rfc1321.Block(Rfc1321.Pad(data), i)
  {
    PaddedLengthIsRfc(data);
    var m, padded := PaddedLength(|data|), Rfc1321.Pad(data);
    forall j | 0 <= j < 16
      ensures PaddedWord(data, m, 64 * i + 4 * j) == Rfc1321.Word(padded, i, j)
    {
      var p := 64 * i + 4 * j;
      LazyByteIsRfcByte(data, p);
      LazyByteIsRfcByte(data, p + 1);
      LazyByteIsRfcByte(data, p + 2);
      LazyByteIsRfcByte(data, p + 3);
      WordAsSum(padded[p], padded[p + 1], padded[p + 2], padded[p + 3]);
    }
  }

  // Mixing.

  /** For every shift of the table, shift-or-shift is the circular shift. */
  lemma RotationIsCircular(v: bv32)
    ensures LeftRotate(v, 7) == v.RotateLeft(7) && LeftRotate(v, 12) == v.RotateLeft(12)
    ensures LeftRotate(v, 17) == v.RotateLeft(17) && LeftRotate(v, 22) == v.RotateLeft(22)
    ensures LeftRotate(v, 5) == v.RotateLeft(5) && LeftRotate(v, 9) == v.RotateLeft(9)
    ensures LeftRotate(v, 14) == v.RotateLeft(14) && LeftRotate(v, 20) == v.RotateLeft(20)
    ensures LeftRotate(v, 4) == v.RotateLeft(4) && LeftRotate(v, 11) == v.RotateLeft(11)
    ensures LeftRotate(v, 16) == v.RotateLeft(16) && LeftRotate(v, 23) == v.RotateLeft(23)
    ensures LeftRotate(v, 6) == v.RotateLeft(6) && LeftRotate(v, 10) == v.RotateLeft(10)
    ensures LeftRotate(v, 15) == v.RotateLeft(15) && LeftRotate(v, 21) == v.RotateLeft(21)
  {
  }

  lemma FForm(b: bv32, c: bv32, d: bv32)
    ensures d ^ (b & (c ^ d)) == Rfc1321.F(b, c, d)
  {
  }

  lemma GForm(b: bv32, c: bv32, d: bv32)
    ensures c ^ (d & (b ^ c)) == Rfc1321.G(b, c, d)
  {
  }

  lemma CalcFByRound(i: nat, b: bv32, c: bv32, d: bv32)
    requires i < 32
    ensures i < 16 ==> CalcF(i, b, c, d) == Rfc1321.F(b, c, d)
    ensures i >= 16 ==> CalcF(i, b, c, d) == Rfc1321.G(b, c, d)
  {
    FForm(b, c, d);
    GForm(b, c, d);
  }

  lemma AuxiliaryByRound(i: nat, b: bv32, c: bv32, d: bv32)
    requires i < 32
    ensures i < 16 ==> Rfc1321.Auxiliary(i + 1, b, c, d) == Rfc1321.F(b, c, d)
    ensures i >= 16 ==> Rfc1321.Auxiliary(i + 1, b, c, d) == Rfc1321.G(b, c, d)
  {
  }

  lemma MixingConforms(i: nat, b: bv32, c: bv32, d: bv32)
    requires i < 64
    ensures CalcF(i, b, c, d) == Rfc1321.Auxiliary(i + 1, b, c, d)
  {
    if i < 32 {
      CalcFByRound(i, b, c, d);
      AuxiliaryByRound(i, b, c, d);
    }
  }

  lemma Round1Conforms(i: nat)
    requires i < 16
    ensures TableRowConforms(Rfc1321.Round1()[i], i)
  {
    assert i / 16 == 0;
    assert i % 4 == 0 || i % 4 == 1 || i % 4 == 2 || i % 4 == 3;
  }

  lemma Round2Conforms(i: nat)
    requires 16 <= i < 32
    ensures TableRowConforms(Rfc1321.Round2()[i - 16], i)
  {
    if i < 24 {
      if i < 20 {
      }
    } else if i < 28 {
    }
  }

  lemma Round3Conforms(i: nat)
    requires 32 <= i < 48
    ensures TableRowConforms(Rfc1321.Round3()[i - 32], i)
  {
    if i < 40 {
      if i < 36 {
      }
    } else if i < 44 {
    }
  }

  lemma Round4Conforms(i: nat)
    requires 48 <= i < 64
    ensures TableRowConforms(Rfc1321.Round4()[i - 48], i)
  {
    if i < 56 {
      if i < 52 {
      }
    } else if i < 60 {
    }
  }

  ghost predicate TableRowConforms(op: Rfc1321.Op, i: nat)
    requires i < 64
  {
    op.i == i + 1 && op.k == CalcG(i) && op.s == GetShift(i) && op.order.First() == (64 - i) % 4
  }

  /** Operation `i` of the RFC's list uses the word, shift and register order of step `i`. */
  lemma TableConforms(i: nat)
    requires i < 64
    ensures TableRowConforms(Rfc1321.AllRounds()[i], i)
  {
    if i < 16 {
      Round1Conforms(i);
    } else if i < 32 {
      Round2Conforms(i);
    } else if i < 48 {
      Round3Conforms(i);
    } else {
      Round4Conforms(i);
    }
  }

  /** The register contents as step `k` sees them: after `k` rotations of the roles. */
  function View(k: nat, r: Rfc1321.Registers): IntermediateData
    requires k <= 64
  {
    [r[(64 - k) % 4], r[(65 - k) % 4], r[(66 - k) % 4], r[(67 - k) % 4]]
  }

  lemma ViewAtRest(r: Rfc1321.Registers)
    ensures View(0, r) == r && View(64, r) == r
  {
  }

  /** The source's constants are the RFC's table, row by row. */
  lemma ConstantsFrom0(i: nat)
    requires 0 <= i < 16
    ensures Constant(i) == Rfc1321.T(i + 1)
  {
    assert Constant(0) == Rfc1321.T(1) && Constant(1) == Rfc1321.T(2);
    assert Constant(2) == Rfc1321.T(3) && Constant(3) == Rfc1321.T(4);
    assert Constant(4) == Rfc1321.T(5) && Constant(5) == Rfc1321.T(6);
    assert Constant(6) == Rfc1321.T(7) && Constant(7) == Rfc1321.T(8);
    assert Constant(8) == Rfc1321.T(9) && Constant(9) == Rfc1321.T(10);
    assert Constant(10) == Rfc1321.T(11) && Constant(11) == Rfc1321.T(12);
    assert Constant(12) == Rfc1321.T(13) && Constant(13) == Rfc1321.T(14);
    assert Constant(14) == Rfc1321.T(15) && Constant(15) == Rfc1321.T(16);
  }

  lemma ConstantsFrom16(i: nat)
    requires 16 <= i < 32
    ensures Constant(i) == Rfc1321.T(i + 1)
  {
    assert Constant(16) == Rfc1321.T(17) && Constant(17) == Rfc1321.T(18);
    assert Constant(18) == Rfc1321.T(19) && Constant(19) == Rfc1321.T(20);
    assert Constant(20) == Rfc1321.T(21) && Constant(21) == Rfc1321.T(22);
    assert Constant(22) == Rfc1321.T(23) && Constant(23) == Rfc1321.T(24);
    assert Constant(24) == Rfc1321.T(25) && Constant(25) == Rfc1321.T(26);
    assert Constant(26) == Rfc1321.T(27) && Constant(27) == Rfc1321.T(28);
    assert Constant(28) == Rfc1321.T(29) && Constant(29) == Rfc1321.T(30);
    assert Constant(30) == Rfc1321.T(31) && Constant(31) == Rfc1321.T(32);
  }

  lemma ConstantsFrom32(i: nat)
    requires 32 <= i < 48
    ensures Constant(i) == Rfc1321.T(i + 1)
  {
    assert Constant(32) == Rfc1321.T(33) && Constant(33) == Rfc1321.T(34);
    assert Constant(34) == Rfc1321.T(35) && Constant(35) == Rfc1321.T(36);
    assert Constant(36) == Rfc1321.T(37) && Constant(37) == Rfc1321.T(38);
    assert Constant(38) == Rfc1321.T(39) && Constant(39) == Rfc1321.T(40);
    assert Constant(40) == Rfc1321.T(41) && Constant(41) == Rfc1321.T(42);
    assert Constant(42) == Rfc1321.T(43) && Constant(43) == Rfc1321.T(44);
    assert Constant(44) == Rfc1321.T(45) && Constant(45) == Rfc1321.T(46);
    assert Constant(46) == Rfc1321.T(47) && Constant(47) == Rfc1321.T(48);
  }

  lemma ConstantsFrom48(i: nat)
    requires 48 <= i < 64
    ensures Constant(i) == Rfc1321.T(i + 1)
  {
    assert Constant(48) == Rfc1321.T(49) && Constant(49) == Rfc1321.T(50);
    assert Constant(50) == Rfc1321.T(51) && Constant(51) == Rfc1321.T(52);
    assert Constant(52) == Rfc1321.T(53) && Constant(53) == Rfc1321.T(54);
    assert Constant(54) == Rfc1321.T(55) && Constant(55) == Rfc1321.T(56);
    assert Constant(56) == Rfc1321.T(57) && Constant(57) == Rfc1321.T(58);
    assert Constant(58) == Rfc1321.T(59) && Constant(59) == Rfc1321.T(60);
    assert Constant(60) == Rfc1321.T(61) && Constant(61) == Rfc1321.T(62);
    assert Constant(62) == Rfc1321.T(63) && Constant(63) == Rfc1321.T(64);
  }

  lemma ConstantsConform(i: nat)
    requires i < 64
    ensures Constant(i) == Rfc1321.T(i + 1)
  {
    if i < 16 {
      ConstantsFrom0(i);
    } else if i < 32 {
      ConstantsFrom16(i);
    } else if i < 48 {
      ConstantsFrom32(i);
    } else {
      ConstantsFrom48(i);
    }
  }

  lemma SumOrder(f: bv32, a: bv32, t: bv32, x: bv32)
    ensures Md5.Sum(f, a, t, x) == Rfc1321.Sum(a, f, x, t)
  {
  }

  lemma ValuesConform(i: nat, x: RoundData, op: Rfc1321.Op, a: bv32, b: bv32, c: bv32, d: bv32)
    requires i < 64 && TableRowConforms(op, i) && Rfc1321.WellFormed(op)
    ensures StepValue(i, x, a, b, c, d) == Rfc1321.OperationValue(op, x, a, b, c, d)
  {
    MixingConforms(i, b, c, d);
    ConstantsConform(i);
    SumOrder(CalcF(i, b, c, d), a, Constant(i), x[CalcG(i)]);
  }

  lemma RoleShift(i: nat, r: Rfc1321.Registers, value: bv32)
    requires i < 64
    ensures var v := View(i, r); View(i + 1, r[(64 - i) % 4 := value]) == [v[3], value, v[1], v[2]]
  {
  }

  lemma RegisterPositions(i: nat, op: Rfc1321.Op)
    requires i < 64 && op.order.First() == (64 - i) % 4
    ensures var a := op.order.First();
      (a + 1) % 4 == (65 - i) % 4 && (a + 2) % 4 == (66 - i) % 4 && (a + 3) % 4 == (67 - i) % 4
  {
  }

  lemma OperateInView(i: nat, x: RoundData, op: Rfc1321.Op, r: Rfc1321.Registers)
    requires i < 64 && TableRowConforms(op, i) && Rfc1321.WellFormed(op)
    ensures var v := View(i, r);
      Rfc1321.Operate(op, x, r) == r[(64 - i) % 4 := Rfc1321.OperationValue(op, x, v[0], v[1], v[2], v[3])]
  {
    RegisterPositions(i, op);
  }

  lemma StepIsOperation(i: nat, x: RoundData, op: Rfc1321.Op, r: Rfc1321.Registers)
    requires i < 64 && TableRowConforms(op, i) && Rfc1321.WellFormed(op)
    ensures View(i + 1, Rfc1321.Operate(op, x, r)) == ApplyStep(i, x, View(i, r))
  {
    var v := View(i, r);
    OperateInView(i, x, op, r);
    ValuesConform(i, x, op, v[0], v[1], v[2], v[3]);
    RoleShift(i, r, StepValue(i, x, v[0], v[1], v[2], v[3]));
  }

  /** Rotating the roles of the registers through 64 uniform steps is the same computation as
      the RFC's 64 in-place operations. */
  lemma {:induction false} StepsAreOperations(k: nat, x: RoundData, r: Rfc1321.Registers)
    requires k <= 64
    ensures forall op :: op in Rfc1321.AllRounds()[..k] ==> Rfc1321.WellFormed(op)
    ensures Steps(k, x, r) == View(k, Rfc1321.Operations(Rfc1321.AllRounds()[..k], x, r))
  {
    Rfc1321.RoundsAreWellFormed();
    if k == 0 {
      ViewAtRest(r);
    } else {
      var ops := Rfc1321.AllRounds();
      StepsAreOperations(k - 1, x, r);
      TableConforms(k - 1);
      LastOperation(k, ops, x, r);
      StepIsOperation(k - 1, x, ops[k - 1], Rfc1321.Operations(ops[..k - 1], x, r));
    }
  }

  lemma LastOperation(k: nat, ops: seq<Rfc1321.Op>, x: RoundData, r: Rfc1321.Registers)
    requires 0 < k <= |ops| && forall op :: op in ops ==> Rfc1321.WellFormed(op)
    ensures Rfc1321.WellFormed(ops[k - 1])
    ensures Rfc1321.Operations(ops[..k], x, r) == Rfc1321.Operate(ops[k - 1], x, Rfc1321.Operations(ops[..k - 1], x, r))
  {
    assert ops[..k][..k - 1] == ops[..k - 1];
  }

  lemma RoundConforms(x: RoundData, r: Rfc1321.Registers)
    ensures forall op :: op in Rfc1321.AllRounds() ==> Rfc1321.WellFormed(op)
    ensures Steps(64, x, r) == Rfc1321.Operations(Rfc1321.AllRounds(), x, r)
  {
    StepsAreOperations(64, x, r);
    assert Rfc1321.AllRounds()[..64] == Rfc1321.AllRounds();
    ViewAtRest(Rfc1321.Operations(Rfc1321.AllRounds(), x, r));
  }

  lemma AddConforms(saved: IntermediateData, r: IntermediateData)
    ensures Add(saved, r) == Rfc1321.Accumulate(r, saved)
  {
  }

  ghost predicate BlocksAgree(data: Message, m: nat, padded: seq<byte>)
    requires m % 64 == 0 && m == |padded|
  {
    forall i: nat :: 64 * i + 64 <= m ==> GetRoundData(data, m, 64 * i) == Rfc1321.Block(padded, i)
  }

  lemma ChainStepConforms(data: Message, m: nat, padded: seq<byte>, n: nat)
    requires m % 64 == 0 && 64 * n + 64 <= m == |padded|
    requires BlocksAgree(data, m, padded)
    requires Chain(data, m, n) == Rfc1321.Process(padded, n)
    ensures Chain(data, m, n + 1) == Rfc1321.Process(padded, n + 1)
  {
    var saved, x := Chain(data, m, n), GetRoundData(data, m, 64 * n);
    RoundConforms(x, saved);
    AddConforms(saved, Steps(64, x, saved));
  }

  lemma {:induction false} ChainConforms(data: Message, m: nat, padded: seq<byte>, n: nat)
    requires m % 64 == 0 && 64 * n <= m == |padded|
    requires BlocksAgree(data, m, padded)
    ensures Chain(data, m, n) == Rfc1321.Process(padded, n)
  {
    if n > 0 {
      var k := n - 1;
      ChainConforms(data, m, padded, k);
      ChainStepConforms(data, m, padded, k);
    }
  }

  /** The conformance theorem: on every message whose bit length fits the source's 32-bit
      product, the chaining value is the RFC's. */
  lemma ProcessMessageConforms(data: Message)
    requires |data| < 0x2000_0000
    ensures MessageDigest(data) == Rfc1321.Process(Rfc1321.Pad(data), |Rfc1321.Pad(data)| / 64)
  {
    PaddedLengthIsRfc(data);
    var m, padded := PaddedLength(|data|), Rfc1321.Pad(data);
    forall i: nat | 64 * i + 64 <= m
      ensures GetRoundData(data, m, 64 * i) == Rfc1321.Block(padded, i)
    {
      BlocksConform(data, i);
    }
    ChainConforms(data, m, padded, m / 64);
  }

  function BigEndian32(b: seq<byte>): bv32
    requires |b| == 4
  {
    OrBytes(Wide(b[3]), Wide(b[2]), Wide(b[1]), Wide(b[0]))
  }

  lemma SwapForm(a: bv32)
    ensures SwapEndian(a) == OrBytes((a >> 24) & 0xff, (a >> 16) & 0xff, (a >> 8) & 0xff, a & 0xff)
  {
  }

  lemma SwapIsOutputBigEndian(a: bv32)
    ensures SwapEndian(a) == BigEndian32(Rfc1321.Output(a))
  {
    SwapForm(a);
    WideNarrow(a);
    WideNarrow(a >> 8);
    WideNarrow(a >> 16);
    WideNarrow(a >> 24);
  }

  /** The hashes are the first four and eight bytes of the RFC's digest, read big-endian: the two
      halves of the longer one are the first and the second four. */
  lemma HashesConform(data: Message)
    requires |data| < 0x2000_0000
    ensures Hash32(data) == BigEndian32(Rfc1321.Digest(data)[..4])
    ensures HighHalf(Hash64(data)) == BigEndian32(Rfc1321.Digest(data)[..4])
    ensures LowHalf(Hash64(data)) == BigEndian32(Rfc1321.Digest(data)[4..8])
  {
    ProcessMessageConforms(data);
    var r := Rfc1321.Process(Rfc1321.Pad(data), |Rfc1321.Pad(data)| / 64);
    DigestPrefixes(data, r);
    SwapIsOutputBigEndian(r[0]);
    SwapIsOutputBigEndian(r[1]);
    JoinHalves(SwapEndian(r[0]), SwapEndian(r[1]));
  }

  function HighHalf(x: bv64): bv32 {
    (x >> 32) as bv32
  }

  function LowHalf(x: bv64): bv32 {
    (x & 0xffff_ffff) as bv32
  }

  lemma JoinHalves(high: bv32, low: bv32)
    ensures HighHalf(Join(high, low)) == high && LowHalf(Join(high, low)) == low
  {
  }

  lemma DigestPrefixes(data: seq<byte>, r: Rfc1321.Registers)
    requires r == Rfc1321.Process(Rfc1321.Pad(data), |Rfc1321.Pad(data)| / 64)
    ensures Rfc1321.Digest(data)[..4] == Rfc1321.Output(r[0])
    ensures Rfc1321.Digest(data)[4..8] == Rfc1321.Output(r[1])
  {
  }

  // The hash as a number.

  lemma SecondByte(x: bv32, a: bv32, b: bv32)
    requires a <= 0xff && b <= 0xff && x == a | (b << 8)
    ensures x as int == a as int + 0x100 * (b as int)
  {
  }

  lemma ThirdByte(x: bv32, a: bv32, b: bv32)
    requires a <= 0xffff && b <= 0xff && x == a | (b << 16)
    ensures x as int == a as int + 0x1_0000 * (b as int)
  {
  }

  lemma FourthByte(x: bv32, a: bv32, b: bv32)
    requires a <= 0xff_ffff && b <= 0xff && x == a | (b << 24)
    ensures x as int == a as int + 0x100_0000 * (b as int)
  {
  }

  function LowTwo(b0: bv32, b1: bv32): bv32 {
    b0 | (b1 << 8)
  }

  function LowThree(x: bv32, b2: bv32): bv32 {
    x | (b2 << 16)
  }

  function AllFour(y: bv32, b3: bv32): bv32 {
    y | (b3 << 24)
  }

  lemma Parts(b0: bv32, b1: bv32, b2: bv32, b3: bv32)
    requires b0 <= 0xff && b1 <= 0xff && b2 <= 0xff && b3 <= 0xff
    ensures LowTwo(b0, b1) <= 0xffff && LowThree(LowTwo(b0, b1), b2) <= 0xff_ffff
    ensures OrBytes(b0, b1, b2, b3) == AllFour(LowThree(LowTwo(b0, b1), b2), b3)
  {
  }

  lemma LowTwoValue(x: bv32, a: bv32, b: bv32)
    requires a <= 0xff && b <= 0xff && x == LowTwo(a, b)
    ensures x as int == a as int + 0x100 * (b as int)
  {
    SecondByte(x, a, b);
  }

  lemma LowThreeValue(x: bv32, a: bv32, b: bv32)
    requires a <= 0xffff && b <= 0xff && x == LowThree(a, b)
    ensures x as int == a as int + 0x1_0000 * (b as int)
  {
    ThirdByte(x, a, b);
  }

  lemma AllFourValue(x: bv32, a: bv32, b: bv32)
    requires a <= 0xff_ffff && b <= 0xff && x == AllFour(a, b)
    ensures x as int == a as int + 0x100_0000 * (b as int)
  {
    FourthByte(x, a, b);
  }

  lemma InTurn(w: bv32, x: bv32, y: bv32, b0: bv32, b1: bv32, b2: bv32, b3: bv32)
    requires b0 <= 0xff && b1 <= 0xff && b2 <= 0xff && b3 <= 0xff && x <= 0xffff && y <= 0xff_ffff
    requires x == LowTwo(b0, b1) && y == LowThree(x, b2) && w == AllFour(y, b3)
    ensures w as int == b0 as int + 0x100 * (b1 as int) + 0x1_0000 * (b2 as int) + 0x100_0000 * (b3 as int)
  {
    LowTwoValue(x, b0, b1);
    LowThreeValue(y, x, b2);
    AllFourValue(w, y, b3);
  }

  lemma OrBytesValue(w: bv32, b0: bv32, b1: bv32, b2: bv32, b3: bv32)
    requires b0 <= 0xff && b1 <= 0xff && b2 <= 0xff && b3 <= 0xff && w == OrBytes(b0, b1, b2, b3)
    ensures w as int == b0 as int + 0x100 * (b1 as int) + 0x1_0000 * (b2 as int) + 0x100_0000 * (b3 as int)
  {
    Parts(b0, b1, b2, b3);
    InTurn(w, LowTwo(b0, b1), LowThree(LowTwo(b0, b1), b2), b0, b1, b2, b3);
  }

  lemma ByteValue(x: bv8, b: byte)
    requires x == Bits(b)
    ensures x as int == b
  {
    BitsValue(b);
  }

  lemma WidenValue(w: bv32, x: bv8)
    requires w == x as bv32
    ensures w as int == x as int
  {
  }

  lemma WideValue(w: bv32, b: byte)
    requires w == Wide(b)
    ensures w as int == b
  {
    WidenValue(w, Bits(b));
    ByteValue(Bits(b), b);
  }

  /** Four bytes read as a number, most significant first. */
  function Number(b0: byte, b1: byte, b2: byte, b3: byte): int {
    b0 as int * 0x100_0000 + b1 as int * 0x1_0000 + b2 as int * 0x100 + b3 as int
  }

  lemma WordValue(w: bv32, b0: byte, b1: byte, b2: byte, b3: byte)
    requires w == OrBytes(Wide(b3), Wide(b2), Wide(b1), Wide(b0))
    ensures w as int == Number(b0, b1, b2, b3)
  {
    WideIsSmall(b0);
    WideIsSmall(b1);
    WideIsSmall(b2);
    WideIsSmall(b3);
    WideValue(Wide(b0), b0);
    WideValue(Wide(b1), b1);
    WideValue(Wide(b2), b2);
    WideValue(Wide(b3), b3);
    OrBytesValue(w, Wide(b3), Wide(b2), Wide(b1), Wide(b0));
  }

  /** The hash of a NUL-terminated string is the number that the first four bytes of the RFC's digest
      of its characters are, most significant first. */
  lemma StringHashConforms(name: seq<byte>)
    requires |CString(name)| < 0x2000_0000
    ensures var d := Rfc1321.Digest(CString(name)); MD5Hash32(name) as int == Number(d[0], d[1], d[2], d[3])
  {
    var s := CString(name);
    NotTruncated(s);
    assert MD5Hash32(name) == Hash32(s);
    HashesConform(s);
    BigEndianValue(Hash32(s), Rfc1321.Digest(s)[..4]);
  }

  lemma NotTruncated(s: seq<byte>)
    requires |s| < 0x2000_0000
    ensures s[..Truncate32(|s|)] == s
  {
  }

  lemma BigEndianValue(w: bv32, d: seq<byte>)
    requires |d| == 4 && w == BigEndian32(d)
    ensures w as int == Number(d[0], d[1], d[2], d[3])
  {
    WordValue(w, d[0], d[1], d[2], d[3]);
  }

  // Padding and words are injective.

  lemma BytesOfOr(b0: bv32, b1: bv32, b2: bv32, b3: bv32)
    requires b0 <= 0xff && b1 <= 0xff && b2 <= 0xff && b3 <= 0xff
    ensures var w := OrBytes(b0, b1, b2, b3);
      && LowBits(w) == LowBits(b0) && LowBits(w >> 8) == LowBits(b1)
      && LowBits(w >> 16) == LowBits(b2) && LowBits(w >> 24) == LowBits(b3)
  {
  }

  lemma WordGivesBytes(b0: byte, b1: byte, b2: byte, b3: byte)
    ensures Rfc1321.Output(AssembleWord(b0, b1, b2, b3)) == [b0, b1, b2, b3]
  {
    WideIsSmall(b0);
    WideIsSmall(b1);
    WideIsSmall(b2);
    WideIsSmall(b3);
    BytesOfOr(Wide(b0), Wide(b1), Wide(b2), Wide(b3));
    NarrowWide(b0);
    NarrowWide(b1);
    NarrowWide(b2);
    NarrowWide(b3);
  }

  /** The padded message as the source sees it, as words and as bytes. */
  function PaddedWords(data: Message): (w: seq<bv32>)
  {
    var m := PaddedLength(|data|);
    seq(m / 4, j requires 0 <= j < m / 4 => PaddedWord(data, m, 4 * j))
  }

  function PaddedBytes(data: Message): (s: seq<byte>)
    ensures |s| == PaddedLength(|data|)
  {
    var m := PaddedLength(|data|);
    seq(m, i requires 0 <= i < m => PaddedByte(data, m, i))
  }

  function Reassemble(words: seq<bv32>): (s: seq<byte>)
    ensures |s| == 4 * |words|
  {
    if words == [] then [] else Rfc1321.Output(words[0]) + Reassemble(words[1..])
  }

  lemma {:induction false} ReassembleAt(words: seq<bv32>, j: nat)
    requires j < |words|
    ensures Reassemble(words)[4 * j..4 * j + 4] == Rfc1321.Output(words[j])
  {
    if j > 0 {
      ReassembleAt(words[1..], j - 1);
      assert Reassemble(words)[4 * j..4 * j + 4] == Reassemble(words[1..])[4 * (j - 1)..4 * (j - 1) + 4];
    }
  }

  lemma WordAt(data: Message, j: nat)
    requires j < |PaddedWords(data)|
    ensures 4 * j + 4 <= |PaddedBytes(data)|
    ensures Rfc1321.Output(PaddedWords(data)[j]) == PaddedBytes(data)[4 * j..4 * j + 4]
  {
    var m, p, bytes := PaddedLength(|data|), 4 * j, PaddedBytes(data);
    WordGivesBytes(bytes[p], bytes[p + 1], bytes[p + 2], bytes[p + 3]);
    FourBytes(bytes, p);
  }

  lemma FourBytes(s: seq<byte>, p: nat)
    requires p + 4 <= |s|
    ensures s[p..p + 4] == [s[p], s[p + 1], s[p + 2], s[p + 3]]
  {
  }

  lemma ByteGivenBack(data: Message, j: nat, k: nat)
    requires j < |PaddedWords(data)| && k < 4
    ensures 4 * j + 4 <= |PaddedBytes(data)| && |Reassemble(PaddedWords(data))| == 4 * |PaddedWords(data)|
    ensures Reassemble(PaddedWords(data))[4 * j + k] == PaddedBytes(data)[4 * j + k]
  {
    ReassembleAt(PaddedWords(data), j);
    WordAt(data, j);
    SliceAt(Reassemble(PaddedWords(data)), PaddedBytes(data), 4 * j, k);
  }

  lemma SliceAt(s: seq<byte>, t: seq<byte>, p: nat, k: nat)
    requires p + 4 <= |s| && p + 4 <= |t| && s[p..p + 4] == t[p..p + 4] && k < 4
    ensures s[p + k] == t[p + k]
  {
    assert s[p + k] == s[p..p + 4][k];
    assert t[p + k] == t[p..p + 4][k];
  }

  /** Splitting the words back into bytes gives the padded bytes. */
  lemma WordsGiveBytes(data: Message)
    ensures Reassemble(PaddedWords(data)) == PaddedBytes(data)
  {
    var bytes, back := PaddedBytes(data), Reassemble(PaddedWords(data));
    assert |back| == |bytes|;
    forall i | 0 <= i < |bytes| ensures back[i] == bytes[i] {
      ByteGivenBack(data, i / 4, i % 4);
    }
  }

  /** Within the 2^29 limit, two messages with the same padded words are equal. */
  lemma PaddingIsInjective(x: Message, y: Message)
    requires |x| < 0x2000_0000 && |y| < 0x2000_0000
    requires PaddedWords(x) == PaddedWords(y)
    ensures x == y
  {
    WordsGiveBytes(x);
    WordsGiveBytes(y);
    SameLength(x, y);
    forall i | 0 <= i < |x| ensures x[i] == y[i] {
      LengthArithmetic(|x|);
      assert PaddedBytes(x)[i] == PaddedBytes(y)[i];
    }
  }

  lemma PaddedBytesAreRfc(x: Message)
    requires |x| < 0x2000_0000
    ensures PaddedBytes(x) == Rfc1321.Pad(x)
  {
    PaddedLengthIsRfc(x);
    forall i | 0 <= i < |PaddedBytes(x)| ensures PaddedBytes(x)[i] == Rfc1321.Pad(x)[i] {
      LazyByteIsRfcByte(x, i);
    }
  }

  lemma LengthFieldValue(n: uint32)
    ensures GetLE(Rfc1321.LengthField(n)) == 8 * n
  {
    BitLengthFits(n);
    GetPut(8 * n, 8);
    FieldWidths();
  }

  lemma LengthFromBytes(x: Message)
    requires |x| < 0x2000_0000
    ensures |PaddedBytes(x)| >= 8 && GetLE(PaddedBytes(x)[|PaddedBytes(x)| - 8..]) == 8 * |x|
  {
    PaddedBytesAreRfc(x);
    var padded := Rfc1321.Pad(x);
    LengthFieldValue(|x|);
    assert padded[|padded| - 8..] == Rfc1321.LengthField(|x|);
  }

  lemma SameLength(x: Message, y: Message)
    requires |x| < 0x2000_0000 && |y| < 0x2000_0000
    requires PaddedBytes(x) == PaddedBytes(y)
    ensures |x| == |y|
  {
    LengthFromBytes(x);
    LengthFromBytes(y);
  }

  // The mixing steps are invertible.

  function Plus(b: bv32, v: bv32): bv32 {
    b + v
  }

  function Minus(v: bv32, b: bv32): bv32 {
    v - b
  }

  lemma MinusOfSum(b: bv32, v: bv32)
    ensures Minus(b + v, b) == v
  {
  }

  lemma PlusOfDifference(b: bv32, v: bv32)
    ensures Plus(b, v - b) == v
  {
  }

  ghost predicate TableShift(s: bv32) {
    || s == 7 || s == 12 || s == 17 || s == 22 || s == 5 || s == 9 || s == 14 || s == 20
    || s == 4 || s == 11 || s == 16 || s == 23 || s == 6 || s == 10 || s == 15 || s == 21
  }

  lemma ShiftIsTableShift(i: nat)
    requires i < 64
    ensures TableShift(GetShift(i))
  {
  }

  lemma RotateBackRow1(v: bv32, s: bv32)
    requires s == 7 || s == 12 || s == 17 || s == 22
    ensures LeftRotate(LeftRotate(v, s), 32 - s) == v
  {
    if s == 7 {
    } else if s == 12 {
    } else if s == 17 {
    }
  }

  lemma RotateBackRow2(v: bv32, s: bv32)
    requires s == 5 || s == 9 || s == 14 || s == 20
    ensures LeftRotate(LeftRotate(v, s), 32 - s) == v
  {
    if s == 5 {
    } else if s == 9 {
    } else if s == 14 {
    }
  }

  lemma RotateBackRow3(v: bv32, s: bv32)
    requires s == 4 || s == 11 || s == 16 || s == 23
    ensures LeftRotate(LeftRotate(v, s), 32 - s) == v
  {
    if s == 4 {
    } else if s == 11 {
    } else if s == 16 {
    }
  }

  lemma RotateBackRow4(v: bv32, s: bv32)
    requires s == 6 || s == 10 || s == 15 || s == 21
    ensures LeftRotate(LeftRotate(v, s), 32 - s) == v
  {
    if s == 6 {
    } else if s == 10 {
    } else if s == 15 {
    }
  }

  /** Rotating by a table shift and by its complement cancel, in either order. */
  lemma RotateBack(v: bv32, s: bv32)
    requires TableShift(s)
    ensures LeftRotate(LeftRotate(v, s), 32 - s) == v
  {
    if s == 7 || s == 12 || s == 17 || s == 22 {
      RotateBackRow1(v, s);
    } else if s == 5 || s == 9 || s == 14 || s == 20 {
      RotateBackRow2(v, s);
    } else if s == 4 || s == 11 || s == 16 || s == 23 {
      RotateBackRow3(v, s);
    } else {
      RotateBackRow4(v, s);
    }
  }

  lemma RotateForth(v: bv32, s: bv32)
    requires TableShift(s)
    ensures LeftRotate(LeftRotate(v, 32 - s), s) == v
  {
    if s == 7 {
    } else if s == 12 {
    } else if s == 17 {
    } else if s == 22 {
    } else if s == 5 {
    } else if s == 9 {
    } else if s == 14 {
    } else if s == 20 {
    } else if s == 4 {
    } else if s == 11 {
    } else if s == 16 {
    } else if s == 23 {
    } else if s == 6 {
    } else if s == 10 {
    } else if s == 15 {
    }
  }

  function TurnBack(b: bv32, value: bv32, s: bv32): bv32
    requires 0 < s < 32
  {
    LeftRotate(Minus(value, b), 32 - s)
  }

  lemma TurnThenBack(b: bv32, f: bv32, s: bv32)
    requires 0 < s < 32 && LeftRotate(LeftRotate(f, s), 32 - s) == f
    ensures TurnBack(b, Turn(b, f, s), s) == f
  {
    MinusOfSum(b, LeftRotate(f, s));
  }

  lemma TurnIsPlus(b: bv32, f: bv32, s: bv32)
    requires 0 < s < 32
    ensures Turn(b, f, s) == Plus(b, LeftRotate(f, s))
  {
  }

  lemma BackThenTurn(b: bv32, value: bv32, s: bv32)
    requires 0 < s < 32 && LeftRotate(LeftRotate(Minus(value, b), 32 - s), s) == Minus(value, b)
    ensures Turn(b, TurnBack(b, value, s), s) == value
  {
    TurnIsPlus(b, LeftRotate(Minus(value, b), 32 - s), s);
    PlusOfDifference(b, value);
  }

  /** The addend `a` of a step's sum, given the other three. */
  function Addend(sum: bv32, f: bv32, constant: bv32, word: bv32): bv32 {
    sum - f - constant - word
  }

  lemma AddendOfSum(f: bv32, a: bv32, t: bv32, x: bv32)
    ensures Addend(f + a + t + x, f, t, x) == a
  {
  }

  lemma SumThenAddend(f: bv32, a: bv32, t: bv32, x: bv32)
    ensures Addend(Md5.Sum(f, a, t, x), f, t, x) == a
  {
    AddendOfSum(f, a, t, x);
    assert Md5.Sum(f, a, t, x) == f + a + t + x;
  }

  lemma SumOfAddend(sum: bv32, f: bv32, t: bv32, x: bv32)
    ensures Md5.Sum(f, sum - f - t - x, t, x) == sum
  {
  }

  lemma AddendThenSum(sum: bv32, f: bv32, t: bv32, x: bv32)
    ensures Md5.Sum(f, Addend(sum, f, t, x), t, x) == sum
  {
    SumOfAddend(sum, f, t, x);
    assert Addend(sum, f, t, x) == sum - f - t - x;
  }

  function UndoStep(i: nat, data: RoundData, s: IntermediateData): IntermediateData
    requires i < 64
  {
    var b, c, d := s[2], s[3], s[0];
    [Addend(TurnBack(b, s[1], GetShift(i)), CalcF(i, b, c, d), Constant(i), data[CalcG(i)]), b, c, d]
  }

  /** Each step is a bijection on the four registers. */
  lemma UndoAfterStep(i: nat, x: RoundData, s: IntermediateData)
    requires i < 64
    ensures UndoStep(i, x, ApplyStep(i, x, s)) == s
  {
    var f := CalcF(i, s[1], s[2], s[3]);
    ShiftIsTableShift(i);
    RotateBack(Md5.Sum(f, s[0], Constant(i), x[CalcG(i)]), GetShift(i));
    TurnThenBack(s[1], Md5.Sum(f, s[0], Constant(i), x[CalcG(i)]), GetShift(i));
    SumThenAddend(f, s[0], Constant(i), x[CalcG(i)]);
  }

  lemma ValueAfterUndo(v: bv32, b: bv32, f: bv32, t: bv32, x: bv32, s: bv32)
    requires 0 < s < 32 && LeftRotate(LeftRotate(Minus(v, b), 32 - s), s) == Minus(v, b)
    ensures Turn(b, Md5.Sum(f, Addend(TurnBack(b, v, s), f, t, x), t, x), s) == v
  {
    AddendThenSum(TurnBack(b, v, s), f, t, x);
    BackThenTurn(b, v, s);
  }

  lemma StepAfterUndo(i: nat, x: RoundData, s: IntermediateData)
    requires i < 64
    ensures ApplyStep(i, x, UndoStep(i, x, s)) == s
  {
    ShiftIsTableShift(i);
    RotateForth(Minus(s[1], s[2]), GetShift(i));
    ValueAfterUndo(s[1], s[2], CalcF(i, s[2], s[3], s[0]), Constant(i), x[CalcG(i)], GetShift(i));
  }

  function UndoSteps(k: nat, data: RoundData, s: IntermediateData): IntermediateData
    requires k <= 64
    decreases data, k
  {
    if k == 0 then s else UndoSteps(k - 1, data, UndoStep(k - 1, data, s))
  }

  /** For a fixed block the steps, any number of them, permute the register states. */
  lemma {:induction false} StepsPermute(k: nat, x: RoundData, s: IntermediateData)
    requires k <= 64
    ensures UndoSteps(k, x, Steps(k, x, s)) == s
    ensures Steps(k, x, UndoSteps(k, x, s)) == s
  {
    if k > 0 {
      UndoAfterStep(k - 1, x, Steps(k - 1, x, s));
      StepsPermute(k - 1, x, s);
      StepsPermute(k - 1, x, UndoStep(k - 1, x, s));
      StepAfterUndo(k - 1, x, s);
    }
  }
}
