/** SHA-1 as FIPS 180-1 defines it: sections 3 to 5 and 7. */
module Sha1Spec {
  type word = bv32
  type byte = bv8

  /** S^n(X), section 3. */
  function Rol(x: word, n: nat): word
    requires 0 < n < 32
  {
    (x << n) | (x >> (32 - n))
  }

  /** Four bytes as a word, the most significant first, section 2. */
  function Big(b0: byte, b1: byte, b2: byte, b3: byte): word {
    ((b0 as word) << 24) | ((b1 as word) << 16) | ((b2 as word) << 8) | (b3 as word)
  }

  function BytesOf(w: word): (b: seq<byte>)
    ensures |b| == 4
  {
    [((w >> 24) & 0xFF) as byte, ((w >> 16) & 0xFF) as byte, ((w >> 8) & 0xFF) as byte, (w & 0xFF) as byte]
  }

  /** The functions of section 5. */
  function F(t: nat, b: word, c: word, d: word): word
    requires t < 80
  {
    if t < 20 then (b & c) | (!b & d)
    else if t < 40 then b ^ c ^ d
    else if t < 60 then (b & c) | (b & d) | (c & d)
    else b ^ c ^ d
  }

  /** The constants of section 6. */
  function K(t: nat): word
    requires t < 80
  {
    if t < 20 then 0x5A827999 else if t < 40 then 0x6ED9EBA1 else if t < 60 then 0x8F1BBCDC else 0xCA62C1D6
  }

  type Block = b: seq<byte> | |b| == 64 witness seq(64, _ => 0)

  /** The schedule of 80 words, section 7 (a) and (b). */
  function W(m: Block, t: nat): word
    requires t < 80
  {
    if t < 16 then Big(m[4 * t], m[4 * t + 1], m[4 * t + 2], m[4 * t + 3])
    else Rol(W(m, t - 3) ^ W(m, t - 8) ^ W(m, t - 14) ^ W(m, t - 16), 1)
  }

  datatype Regs = Regs(a: word, b: word, c: word, d: word, e: word)

  /** One round, section 7 (d). */
  function Round(r: Regs, t: nat, w: word): Regs
    requires t < 80
  {
    Regs(Sum(Rol(r.a, 5), F(t, r.b, r.c, r.d), r.e, w, K(t)), r.a, Rol(r.b, 30), r.c, r.d)
  }

  function Sum(s: word, f: word, e: word, w: word, k: word): word {
    s + f + e + w + k
  }

  function Rounds(r: Regs, m: Block, t: nat): Regs
    requires t <= 80
  {
    if t == 0 then r else Round(Rounds(r, m, t - 1), t - 1, W(m, t - 1))
  }

  /** Section 7 for one block. */
  function Compress(h: Regs, m: Block): Regs {
    Added(h, Rounds(h, m, 80))
  }

  function Added(h: Regs, r: Regs): Regs {
    Regs(Plus(h.a, r.a), Plus(h.b, r.b), Plus(h.c, r.c), Plus(h.d, r.d), Plus(h.e, r.e))
  }

  /** Addition modulo 2^32. */
  function Plus(x: word, y: word): word {
    x + y
  }

  const INIT := Regs(0x67452301, 0xEFCDAB89, 0x98BADCFE, 0x10325476, 0xC3D2E1F0)

  /** All whole blocks of m, in order. */
  function Fold(h: Regs, m: seq<byte>): Regs
    decreases |m|
  {
    if |m| < 64 then h else Fold(Compress(h, m[..64]), m[64..])
  }

  function Zeros(n: nat): (z: seq<byte>)
    ensures |z| == n
  {
    seq(n, _ => 0)
  }

  /** Zero bytes that section 4 puts behind the bit 1. */
  function Gap(n: nat): (k: nat)
    ensures k < 64 && (n + 1 + k) % 64 == 56
  {
    (119 - n % 64) % 64
  }

  /** The length of the message in bits, as two words, section 4 (c). */
  function LengthBytes(n: nat): (b: seq<byte>)
    ensures |b| == 8
  {
    WordBytes(8 * n / 0x1_0000_0000 % 0x1_0000_0000) + WordBytes(8 * n % 0x1_0000_0000)
  }

  function WordBytes(x: nat): (b: seq<byte>)
    requires x < 0x1_0000_0000
    ensures |b| == 4
  {
    [(x / 0x100_0000) as byte, (x / 0x1_0000 % 0x100) as byte, (x / 0x100 % 0x100) as byte, (x % 0x100) as byte]
  }

  /** The padded message, section 4. */
  function Padded(m: seq<byte>): (p: seq<byte>)
    ensures |p| % 64 == 0
  {
    Whole(|m|, Gap(|m|));
    m + [0x80] + Zeros(Gap(|m|)) + LengthBytes(|m|)
  }

  lemma Whole(n: nat, k: nat)
    requires (n + 1 + k) % 64 == 56
    ensures (n + 1 + k + 8) % 64 == 0
  {
  }

  function Digest(m: seq<byte>): (d: seq<byte>)
    ensures |d| == 20
  {
    Octets(Fold(INIT, Padded(m)))
  }

  function Octets(h: Regs): (d: seq<byte>)
    ensures |d| == 20
  {
    BytesOf(h.a) + BytesOf(h.b) + BytesOf(h.c) + BytesOf(h.d) + BytesOf(h.e)
  }

  /** Blocks may be hashed as they come. */
  lemma {:induction false} FoldAppend(h: Regs, m: seq<byte>, n: seq<byte>)
    requires |m| % 64 == 0
    ensures Fold(h, m + n) == Fold(Fold(h, m), n)
    decreases |m|
  {
    if |m| == 0 {
      assert m + n == n;
    } else {
      assert (m + n)[..64] == m[..64] && (m + n)[64..] == m[64..] + n;
      hide Compress;
      FoldAppend(Compress(h, m[..64]), m[64..], n);
    }
  }

  lemma FoldOne(h: Regs, b: Block)
    ensures Fold(h, b) == Compress(h, b)
  {
    hide Compress;
    assert b[..64] == b && b[64..] == [];
  }
}
