/** Function ids: what a name is hashed to, at the client and at the server alike. */
module FunctionIds {
  import opened Bytes
  import Md5
  import Md5Conformance
  import Rfc1321
  import Routers

  /** The function id of a name: the first four bytes of the MD5 digest of its characters up to the
      first NUL, read as a big-endian number. */
  lemma KeyIsDigest(name: Routers.Name)
    requires |Md5.CString(name)| < 0x2000_0000
    ensures var d := Rfc1321.Digest(Md5.CString(name));
      Routers.Key(name) == Md5Conformance.Number(d[0], d[1], d[2], d[3])
  {
    Md5Conformance.StringHashConforms(name);
  }

  /** Two such names share a function id exactly if their digests begin with the same four bytes. */
  lemma CollidingNames(name: Routers.Name, other: Routers.Name)
    requires |Md5.CString(name)| < 0x2000_0000 && |Md5.CString(other)| < 0x2000_0000
    ensures Routers.Key(name) == Routers.Key(other) <==>
      Rfc1321.Digest(Md5.CString(name))[..4] == Rfc1321.Digest(Md5.CString(other))[..4]
  {
    KeyIsDigest(name);
    KeyIsDigest(other);
    SameNumber(Rfc1321.Digest(Md5.CString(name)), Rfc1321.Digest(Md5.CString(other)),
               Routers.Key(name), Routers.Key(other));
  }

  lemma SameNumber(d: seq<byte>, e: seq<byte>, m: int, n: int)
    requires |d| >= 4 && |e| >= 4
    requires m == Md5Conformance.Number(d[0], d[1], d[2], d[3]) && n == Md5Conformance.Number(e[0], e[1], e[2], e[3])
    ensures m == n <==> d[..4] == e[..4]
  {
    assert d[..4] == [d[0], d[1], d[2], d[3]] && e[..4] == [e[0], e[1], e[2], e[3]];
    if m == n {
      Digits(d[0], d[1], d[2], d[3], e[0], e[1], e[2], e[3]);
    }
  }

  lemma Digits(a: byte, b: byte, c: byte, d: byte, e: byte, f: byte, g: byte, h: byte)
    requires Md5Conformance.Number(a, b, c, d) == Md5Conformance.Number(e, f, g, h)
    ensures a == e && b == f && c == g && d == h
  {
  }
}
