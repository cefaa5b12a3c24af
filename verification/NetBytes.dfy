/** Bytes and 32-bit integers in network order, as the main connection carries them. */
module NetBytes {
  type byte = x: int | 0 <= x < 0x100

  predicate IsInt32(n: int) {
    -0x8000_0000 <= n < 0x8000_0000
  }

  /** A sum or difference of two ints, as 32 bits keep it. */
  function Wrap32(n: int): int {
    if n >= 0x8000_0000 then n - 0x1_0000_0000 else if n < -0x8000_0000 then n + 0x1_0000_0000 else n
  }

  /** The four bytes of `htonl(n)`, lowest address first. */
  function PutInt(n: int): (b: seq<byte>)
    requires IsInt32(n)
    ensures |b| == 4
  {
    var u := if n < 0 then n + 0x1_0000_0000 else n;
    [u / 0x100_0000, u / 0x1_0000 % 0x100, u / 0x100 % 0x100, u % 0x100]
  }

  /** `ntohl` of four bytes, read as a signed int. */
  function GetInt(b: seq<byte>): (n: int)
    requires |b| == 4
    ensures IsInt32(n)
  {
    var b0: int, b1: int, b2: int, b3: int := b[0], b[1], b[2], b[3];
    var u := b0 * 0x100_0000 + b1 * 0x1_0000 + b2 * 0x100 + b3;
    if u >= 0x8000_0000 then u - 0x1_0000_0000 else u
  }

  lemma PutGetInt(n: int)
    requires IsInt32(n)
    ensures GetInt(PutInt(n)) == n
  {
    var u := if n < 0 then n + 0x1_0000_0000 else n;
    var b := PutInt(n);
    assert u == (u / 0x100) * 0x100 + b[3];
    assert u / 0x100 == (u / 0x1_0000) * 0x100 + b[2] by {
      assert u / 0x100 / 0x100 == u / 0x1_0000;
    }
    assert u / 0x1_0000 == b[0] * 0x100 + b[1] by {
      assert u / 0x1_0000 / 0x100 == u / 0x100_0000;
    }
  }
}
