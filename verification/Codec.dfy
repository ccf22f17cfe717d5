/** The MessagePack encodings the protocol builds itself: status codes, strings and short tuples. */
module Codec {
  import opened Bytes

  datatype Option<+T> = None | Some(value: T)

  const OK: byte := 0
  const FAIL: byte := 1

  type String = s: seq<byte> | |s| < 0x1_0000_0000

  /** The `n` low-order bytes of `v`, most significant first. */
  function PutBE(v: nat, n: nat): (s: seq<byte>)
    ensures |s| == n
  {
    if n == 0 then [] else PutBE(v / 256, n - 1) + [LowByte(v)]
  }

  function GetBE(s: seq<byte>): nat {
    if s == [] then 0 else 256 * GetBE(s[..|s| - 1]) + s[|s| - 1]
  }

  lemma {:induction false} GetPutBE(v: nat, n: nat)
    requires v < Pow256(n)
    ensures GetBE(PutBE(v, n)) == v
  {
    if n > 0 {
      assert v / 256 < Pow256(n - 1);
      GetPutBE(v / 256, n - 1);
      assert PutBE(v, n)[..n - 1] == PutBE(v / 256, n - 1);
    }
  }

  function PackStr(s: String): (r: seq<byte>)
    ensures |r| <= 5 + |s| && 0 < |r|
  {
    if |s| < 32 then [0xa0 + |s|] + s
    else if |s| < 256 then [0xd9, |s|] + s
    else if |s| < 65536 then [0xda] + PutBE(|s|, 2) + s
    else [0xdb] + PutBE(|s|, 4) + s
  }

  /** `pack_args_str(result_code, text)`: a two-element array. */
  function PackStatus(code: byte, text: String): (r: seq<byte>)
    ensures |r| <= 7 + |text| && 0 < |r|
  {
    [0x92, code] + PackStr(text)
  }

  /** `pack_args(key, token)`. */
  function PackPair(key: String, token: String): (r: seq<byte>)
    ensures 0 < |r| <= 11 + |key| + |token|
  {
    [0x92] + PackStr(key) + PackStr(token)
  }

  /** `pack_args_str(OK, key, data)`: a publication. */
  function PackPublication(key: String, data: String): (r: seq<byte>)
    ensures 0 < |r| <= 12 + |key| + |data|
  {
    [0x93, OK] + PackStr(key) + PackStr(data)
  }

  /** The text of length `n` behind a header of `h` bytes, and what follows it. */
  function Take(s: seq<byte>, h: nat, n: nat): Option<(String, seq<byte>)>
    requires h <= |s|
  {
    if h + n <= |s| && n < 0x1_0000_0000 then
      var text: String := s[h..h + n];
      Some((text, s[h + n..]))
    else None
  }

  function UnpackStr(s: seq<byte>): Option<(String, seq<byte>)> {
    if s == [] then None
    else if 0xa0 <= s[0] < 0xc0 then Take(s, 1, s[0] - 0xa0)
    else if s[0] == 0xd9 && |s| >= 2 then Take(s, 2, s[1])
    else if s[0] == 0xda && |s| >= 3 then Take(s, 3, GetBE(s[1..3]))
    else if s[0] == 0xdb && |s| >= 5 then Take(s, 5, GetBE(s[1..5]))
    else None
  }

  /** `unpack<std::tuple<std::string, std::string>>`; None stands for the exception. Only
      the two-element form that this client sends is decoded. */
  function UnpackPair(s: seq<byte>): Option<(String, String)> {
    if s == [] || s[0] != 0x92 then None
    else match UnpackStr(s[1..])
      case None => None
      case Some((key, more)) =>
        match UnpackStr(more)
        case None => None
        case Some((token, _)) => Some((key, token))
  }

  /** `unpack<std::tuple<int, std::string, std::string>>`, without the code, which nobody reads.
      Only codes below 128, as this server sends them, are decoded. */
  function UnpackPublication(s: seq<byte>): Option<(String, String)> {
    if |s| < 2 || s[0] != 0x93 || s[1] >= 0x80 then None
    else match UnpackStr(s[2..])
      case None => None
      case Some((key, more)) =>
        match UnpackStr(more)
        case None => None
        case Some((data, _)) => Some((key, data))
  }

  /** `unpack<std::tuple<int, std::string>>`, of a two-element array with a code below 128. */
  function UnpackStatus(s: seq<byte>): Option<(nat, String)> {
    if |s| < 2 || s[0] != 0x92 || s[1] >= 0x80 then None
    else match UnpackStr(s[2..])
      case None => None
      case Some((text, _)) => Some((s[1], text))
  }

  /** `has_error`: whether a reply that came is a failure; None stands for the exception. Only
      short arrays that begin with a code below 128 are decoded. */
  function HasError(result: seq<byte>): Option<bool> {
    if result == [] then Some(true)
    else if |result| < 2 || !(0x91 <= result[0] < 0xa0) || result[1] >= 0x80 then None
    else Some(result[1] != 0)
  }

  lemma TakeExact(h: seq<byte>, text: String, more: seq<byte>)
    ensures Take(h + text + more, |h|, |text|) == Some((text, more))
  {
    var s := h + text + more;
    assert s[|h|..|h| + |text|] == text && s[|h| + |text|..] == more;
  }

  lemma UnpackPackStr(text: String, more: seq<byte>)
    ensures UnpackStr(PackStr(text) + more) == Some((text, more))
  {
    FieldWidths();
    var n := |text|;
    var s := PackStr(text) + more;
    if n < 32 {
      TakeExact([0xa0 + n], text, more);
    } else if n < 256 {
      TakeExact([0xd9, n], text, more);
    } else if n < 65536 {
      assert Pow256(2) == 65536;
      GetPutBE(n, 2);
      TakeExact([0xda] + PutBE(n, 2), text, more);
      assert s[1..3] == PutBE(n, 2);
    } else {
      GetPutBE(n, 4);
      TakeExact([0xdb] + PutBE(n, 4), text, more);
      assert s[1..5] == PutBE(n, 4);
    }
  }

  /** Two strings in a row are unpacked as the two strings. */
  lemma UnpackTwo(first: String, second: String)
    ensures UnpackStr(PackStr(first) + PackStr(second)) == Some((first, PackStr(second)))
    ensures UnpackStr(PackStr(second)) == Some((second, []))
  {
    UnpackPackStr(first, PackStr(second));
    UnpackPackStr(second, []);
    assert PackStr(second) + [] == PackStr(second);
  }

  lemma PairOf(s: seq<byte>, more: seq<byte>, key: String, token: String)
    requires s != [] && s[0] == 0x92
    requires UnpackStr(s[1..]) == Some((key, more)) && UnpackStr(more) == Some((token, []))
    ensures UnpackPair(s) == Some((key, token))
  {
  }

  /** A subscription's key and token survive the wire, even where `key + token` would not
      tell them apart. */
  lemma UnpackPackPair(key: String, token: String)
    ensures UnpackPair(PackPair(key, token)) == Some((key, token))
  {
    UnpackTwo(key, token);
    PairBytes(PackStr(key), PackStr(token));
    PairOf(PackPair(key, token), PackStr(token), key, token);
  }

  lemma PairBytes(a: seq<byte>, b: seq<byte>)
    ensures ([0x92] + a + b)[1..] == a + b && ([0x92] + a + b)[0] == 0x92
    ensures ([0x93, OK] + a + b)[2..] == a + b
  {
  }

  lemma PublicationOf(s: seq<byte>, more: seq<byte>, key: String, data: String)
    requires |s| >= 2 && s[0] == 0x93 && s[1] < 0x80
    requires UnpackStr(s[2..]) == Some((key, more)) && UnpackStr(more) == Some((data, []))
    ensures UnpackPublication(s) == Some((key, data))
  {
  }

  lemma UnpackPackPublication(key: String, data: String)
    ensures UnpackPublication(PackPublication(key, data)) == Some((key, data))
  {
    UnpackTwo(key, data);
    PairBytes(PackStr(key), PackStr(data));
    PublicationOf(PackPublication(key, data), PackStr(data), key, data);
  }

  lemma StatusOf(s: seq<byte>, code: byte, text: String, tail: seq<byte>)
    requires s == [0x92, code] + tail && code < 0x80 && UnpackStr(tail) == Some((text, []))
    ensures UnpackStatus(s) == Some((code as nat, text)) && HasError(s) == Some(code != 0)
  {
    assert s[2..] == tail;
  }

  /** Code and text of a status survive the wire, and its receiver takes it for a failure exactly
      if the code is not 0. */
  lemma UnpackPackStatus(code: byte, text: String)
    requires code < 0x80
    ensures UnpackStatus(PackStatus(code, text)) == Some((code as nat, text))
    ensures HasError(PackStatus(code, text)) == Some(code != 0)
  {
    UnpackPackStr(text, []);
    assert PackStr(text) + [] == PackStr(text);
    StatusOf(PackStatus(code, text), code, text, PackStr(text));
  }

  /** A publication bears the code 0, although nobody reads it. */
  lemma PublicationCode(key: String, data: String)
    ensures HasError(PackPublication(key, data)) == Some(false)
  {
  }

  /** Strings are packed in the shortest of the four forms. */
  lemma ShortestForm(s: String)
    ensures |PackStr(s)| == |s| + if |s| < 32 then 1 else if |s| < 256 then 2 else if |s| < 65536 then 3 else 5
  {
  }

  // Decimal numerals, as `std::to_string` writes them.

  function Decimal(n: nat): (s: seq<byte>)
    ensures 0 < |s|
    ensures forall c :: c in s ==> 48 <= c < 58
  {
    if n < 10 then [48 + n] else Decimal(n / 10) + [48 + n % 10]
  }

  /** The number a numeral stands for. */
  function Numeral(s: seq<byte>): int {
    if s == [] then 0 else 10 * Numeral(s[..|s| - 1]) + (s[|s| - 1] as int - 48)
  }

  /** The numeral of a number stands for it, and has no leading zero. */
  lemma {:induction false} DecimalIsNumeral(n: nat)
    ensures Numeral(Decimal(n)) == n && (n > 0 ==> Decimal(n)[0] != 48)
  {
    if n >= 10 {
      DecimalIsNumeral(n / 10);
      assert Decimal(n)[..|Decimal(n)| - 1] == Decimal(n / 10);
    } else {
      assert Decimal(n)[..0] == [];
    }
  }

  lemma DecimalIsShort(n: uint32)
    ensures |Decimal(n)| <= 10
  {
    DecimalLength(n, 10, 10_000_000_000);
  }

  lemma {:induction false} DecimalLength(n: nat, digits: nat, bound: nat)
    requires digits > 0 && n < bound && bound == Pow10(digits)
    ensures |Decimal(n)| <= digits
  {
    if n >= 10 {
      if digits > 1 {
        DecimalLength(n / 10, digits - 1, bound / 10);
      }
    }
  }

  function Pow10(n: nat): (r: nat)
    ensures r > 0
  {
    if n == 0 then 1 else 10 * Pow10(n - 1)
  }
}
