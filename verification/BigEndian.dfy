/** struct.pack and struct.unpack of unsigned big-endian integers ("!H", "!I"). */
module BigEndian {
  import opened ByteStrings

  function Pack16(n: nat): (r: Bytes)
    requires n < 0x1_0000
    ensures |r| == 2 && Unpack16(r, 0) == n
  {
    [n / 0x100, n % 0x100]
  }

  function Unpack16(s: Bytes, i: nat): (n: nat)
    requires i + 2 <= |s|
    ensures n < 0x1_0000
  {
    s[i] as int * 0x100 + s[i + 1]
  }

  function Pack32(n: nat): (r: Bytes)
    requires n < 0x1_0000_0000
    ensures |r| == 4 && Unpack32(r, 0) == n
  {
    Pack16(n / 0x1_0000) + Pack16(n % 0x1_0000)
  }

  function Unpack32(s: Bytes, i: nat): (n: nat)
    requires i + 4 <= |s|
    ensures n < 0x1_0000_0000
  {
    Unpack16(s, i) * 0x1_0000 + Unpack16(s, i + 2)
  }

  /** Reading inside a longer string sees only the bytes at the position. */
  lemma UnpackAt(s: Bytes, i: nat, a: Bytes)
    requires i + |a| <= |s| && s[i..i + |a|] == a
    ensures |a| == 1 ==> s[i] == a[0]
    ensures |a| == 2 ==> Unpack16(s, i) == Unpack16(a, 0)
    ensures |a| == 4 ==> Unpack32(s, i) == Unpack32(a, 0)
  {
    var t := s[i..i + |a|];
    if |a| > 0 { assert t[0] == s[i]; }
    if |a| > 1 { assert t[1] == s[i + 1]; }
    if |a| == 4 { assert t[2] == s[i + 2] && t[3] == s[i + 3]; }
  }
}
