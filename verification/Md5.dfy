/** The compile-time MD5 of include/rest_rpc/md5.hpp: the message is padded lazily, word by
    word, and every step rotates the roles of the four registers instead of naming them. */
module Md5 {
  import opened Bytes

  /** The four 32-bit registers a, b, c, d, in that order. */
  type IntermediateData = s: seq<bv32> | |s| == 4 witness [0, 0, 0, 0]

  /** `kConstants[i]`. */
  function Constant(i: nat): bv32
    requires i < 64
  {
    if i < 8 then [0xd76aa478, 0xe8c7b756, 0x242070db, 0xc1bdceee, 0xf57c0faf, 0x4787c62a, 0xa8304613, 0xfd469501][i]
    else if i < 16 then
      [0x698098d8, 0x8b44f7af, 0xffff5bb1, 0x895cd7be, 0x6b901122, 0xfd987193, 0xa679438e, 0x49b40821][i - 8]
    else if i < 24 then
      [0xf61e2562, 0xc040b340, 0x265e5a51, 0xe9b6c7aa, 0xd62f105d, 0x02441453, 0xd8a1e681, 0xe7d3fbc8][i - 16]
    else if i < 32 then
      [0x21e1cde6, 0xc33707d6, 0xf4d50d87, 0x455a14ed, 0xa9e3e905, 0xfcefa3f8, 0x676f02d9, 0x8d2a4c8a][i - 24]
    else if i < 40 then
      [0xfffa3942, 0x8771f681, 0x6d9d6122, 0xfde5380c, 0xa4beea44, 0x4bdecfa9, 0xf6bb4b60, 0xbebfbc70][i - 32]
    else if i < 48 then
      [0x289b7ec6, 0xeaa127fa, 0xd4ef3085, 0x04881d05, 0xd9d4d039, 0xe6db99e5, 0x1fa27cf8, 0xc4ac5665][i - 40]
    else if i < 56 then
      [0xf4292244, 0x432aff97, 0xab9423a7, 0xfc93a039, 0x655b59c3, 0x8f0ccc92, 0xffeff47d, 0x85845dd1][i - 48]
    else [0x6fa87e4f, 0xfe2ce6e0, 0xa3014314, 0x4e0811a1, 0xf7537e82, 0xbd3af235, 0x2ad7d2bb, 0xeb86d391][i - 56]
  }

  const SHIFTS: seq<bv32> := [7, 12, 17, 22, 5, 9, 14, 20, 4, 11, 16, 23, 6, 10, 15, 21]

  const INITIAL: IntermediateData := [0x67452301, 0xefcdab89, 0x98badcfe, 0x10325476]

  /** The source's message lengths are 32-bit; `data` stands for the pointer and its length. */
  type Message = data: seq<byte> | |data| < 0x1_0000_0000

  /** Sixteen message words. */
  type RoundData = x: seq<bv32> | |x| == 16 witness seq(16, _ => 0)

  // Padding. All arithmetic on lengths wraps at 32 bits.

  function PaddedLength(n: uint32): (m: uint32)
    ensures m % 64 == 0
  {
    ((n + 1 + 8 + 63) % TWO_32) / 64 * 64
  }

  /** Byte `i` of a value, counting from the least significant: `(value >> (i * 8)) & 0xff`. */
  function ExtractByte(value: nat, i: nat): byte {
    if i == 0 then LowByte(value) else ExtractByte(value / 256, i - 1)
  }

  function PaddedByte(data: Message, m: nat, i: nat): byte
    requires i < m && m % 64 == 0
  {
    var n := |data|;
    if i < n then data[i]
    else if i == n then 0x80
    else if i >= m - 8 then ExtractByte((n * 8) % TWO_32, i - (m - 8))
    else 0
  }

  // Bytes as bit patterns.

  function Bits(b: byte): bv8 {
    b as bv8
  }

  function Value(x: bv8): byte {
    x as int
  }

  /** A byte widened to a word. */
  function Wide(b: byte): bv32 {
    Bits(b) as bv32
  }

  /** The low byte of a word. */
  function Narrow(w: bv32): byte {
    Value(LowBits(w))
  }

  function LowBits(w: bv32): bv8 {
    (w & 0xff) as bv8
  }

  function OrBytes(b0: bv32, b1: bv32, b2: bv32, b3: bv32): bv32 {
    b0 | (b1 << 8) | (b2 << 16) | (b3 << 24)
  }

  function AssembleWord(b0: byte, b1: byte, b2: byte, b3: byte): bv32 {
    OrBytes(Wide(b0), Wide(b1), Wide(b2), Wide(b3))
  }

  function PaddedWord(data: Message, m: nat, i: nat): bv32
    requires i + 3 < m && m % 64 == 0
  {
    AssembleWord(PaddedByte(data, m, i), PaddedByte(data, m, i + 1),
                 PaddedByte(data, m, i + 2), PaddedByte(data, m, i + 3))
  }

  function GetRoundData(data: Message, m: nat, i: nat): RoundData
    requires i + 64 <= m && m % 64 == 0
  {
    seq(16, j requires 0 <= j < 16 => PaddedWord(data, m, i + 4 * j))
  }

  // The mixing steps.

  function CalcF(i: nat, b: bv32, c: bv32, d: bv32): bv32
    requires i < 64
  {
    if i < 16 then d ^ (b & (c ^ d))
    else if i < 32 then c ^ (d & (b ^ c))
    else if i < 48 then b ^ c ^ d
    else c ^ (b | !d)
  }

  function CalcG(i: nat): (g: nat)
    requires i < 64
    ensures g < 16
  {
    if i < 16 then i
    else if i < 32 then (5 * i + 1) % 16
    else if i < 48 then (3 * i + 5) % 16
    else (7 * i) % 16
  }

  function GetShift(i: nat): (s: bv32)
    requires i < 64
    ensures 0 < s < 32
  {
    SHIFTS[(i / 16) * 4 + i % 4]
  }

  function LeftRotate(value: bv32, bits: bv32): bv32
    requires 0 < bits < 32
  {
    (value << bits) | (value >> (32 - bits))
  }

  function Sum(f: bv32, a: bv32, constant: bv32, word: bv32): bv32 {
    f + a + constant + word
  }

  function Turn(b: bv32, f: bv32, s: bv32): bv32
    requires 0 < s < 32
  {
    b + LeftRotate(f, s)
  }

  /** The value step `i` computes from the registers. */
  function StepValue(i: nat, data: RoundData, a: bv32, b: bv32, c: bv32, d: bv32): bv32
    requires i < 64
  {
    Turn(b, Sum(CalcF(i, b, c, d), a, Constant(i), data[CalcG(i)]), GetShift(i))
  }

  function ApplyStep(i: nat, data: RoundData, s: IntermediateData): IntermediateData
    requires i < 64
  {
    [s[3], StepValue(i, data, s[0], s[1], s[2], s[3]), s[1], s[2]]
  }

  function Add(s: IntermediateData, t: IntermediateData): IntermediateData {
    [s[0] + t[0], s[1] + t[1], s[2] + t[2], s[3] + t[3]]
  }

  /** The first `k` steps of a round. */
  function Steps(k: nat, data: RoundData, s: IntermediateData): IntermediateData
    requires k <= 64
    decreases data, k
  {
    if k == 0 then s else ApplyStep(k - 1, data, Steps(k - 1, data, s))
  }

  /** The chaining value after the first `blocks` blocks of the padded message. */
  function Chain(data: Message, m: nat, blocks: nat): IntermediateData
    requires m % 64 == 0 && 64 * blocks <= m
  {
    if blocks == 0 then INITIAL
    else
      var s := Chain(data, m, blocks - 1);
      Add(s, Steps(64, GetRoundData(data, m, 64 * (blocks - 1)), s))
  }

  function MessageDigest(data: Message): IntermediateData {
    var m := PaddedLength(|data|);
    Chain(data, m, m / 64)
  }

  method ProcessMessage(message: Message) returns (intermediate0: IntermediateData)
    ensures intermediate0 == MessageDigest(message)
  {
    var m := PaddedLength(|message|);
    intermediate0 := ProcessBlocks(message, m);
  }

  /** The two nested loops, for an already computed padded length. */
  method ProcessBlocks(message: Message, m: nat) returns (intermediate0: IntermediateData)
    requires m % 64 == 0
    ensures intermediate0 == Chain(message, m, m / 64)
  {
    intermediate0 := INITIAL;
    var offset := 0;
    ghost var blocks := 0;
    while offset < m
      invariant offset == 64 * blocks && offset <= m
      invariant intermediate0 == Chain(message, m, blocks)
    {
      var data := GetRoundData(message, m, offset);
      var intermediate1 := ApplySteps(data, intermediate0);
      ChainNext(message, m, blocks);
      intermediate0 := Add(intermediate0, intermediate1);
      offset := offset + 64;
      blocks := blocks + 1;
    }
  }

  lemma ChainNext(data: Message, m: nat, blocks: nat)
    requires 64 * blocks + 64 <= m && m % 64 == 0
    ensures var s := Chain(data, m, blocks);
      Chain(data, m, blocks + 1) == Add(s, Steps(64, GetRoundData(data, m, 64 * blocks), s))
  {
  }

  /** The inner loop: the 64 steps of one block. */
  method ApplySteps(data: RoundData, intermediate0: IntermediateData) returns (intermediate1: IntermediateData)
    ensures intermediate1 == Steps(64, data, intermediate0)
  {
    intermediate1 := intermediate0;
    for i := 0 to 64
      invariant intermediate1 == Steps(i, data, intermediate0)
    {
      ghost var done := i + 1;
      assert Steps(done, data, intermediate0) == ApplyStep(i, data, intermediate1);
      intermediate1 := ApplyStep(i, data, intermediate1);
    }
  }

  /** Scans for the terminating NUL; the length is cut to 32 bits. */
  method StringLength(s: seq<byte>) returns (n: uint32)
    requires 0 in s
    ensures n == |CString(s)| % TWO_32
  {
    var end := 0;
    while s[end] != 0
      invariant end < |s| && 0 in s[end..] && 0 !in s[..end]
      decreases |s| - end
    {
      end := end + 1;
    }
    CStringLength(s, end);
    n := Truncate32(end);
  }

  function Truncate32(n: nat): uint32 {
    n % TWO_32
  }

  lemma {:induction false} CStringLength(s: seq<byte>, end: nat)
    requires end < |s| && s[end] == 0 && 0 !in s[..end]
    ensures |CString(s)| == end
  {
    if end > 0 {
      assert s[0] == s[..end][0];
      assert s[1..][..end - 1] == s[..end][1..];
      CStringLength(s[1..], end - 1);
    }
  }

  /** The characters of a C string: everything before the first NUL. */
  function CString(s: seq<byte>): (r: seq<byte>)
    ensures |r| <= |s| && r == s[..|r|] && 0 !in r
    ensures |r| < |s| ==> s[|r|] == 0
  {
    if s == [] || s[0] == 0 then [] else [s[0]] + CString(s[1..])
  }

  function SwapEndian(a: bv32): bv32 {
    ((a & 0xff) << 24) | (((a >> 8) & 0xff) << 16) | (((a >> 16) & 0xff) << 8) | ((a >> 24) & 0xff)
  }

  function Join(high: bv32, low: bv32): bv64 {
    ((high as bv64) << 32) | (low as bv64)
  }

  function Hash64(data: Message): bv64 {
    var s := MessageDigest(data);
    Join(SwapEndian(s[0]), SwapEndian(s[1]))
  }

  function Hash32(data: Message): bv32 {
    SwapEndian(MessageDigest(data)[0])
  }

  /** The function id of a name given as a NUL-terminated string: `MD5Hash32(name.data())`. */
  function MD5Hash32(name: seq<byte>): bv32 {
    Hash32(CString(name)[..Truncate32(|CString(name)|)])
  }
}
