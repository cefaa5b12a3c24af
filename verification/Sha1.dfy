/** libdex/sha1.cpp: SHA-1 over a stream of bytes, with a schedule ring of 16 words that is expanded in place. */
module Sha1 {
  import opened Sha1Spec

  /** The macro `rol`. */
  function Rotated(value: word, bits: nat): word
    requires 0 < bits < 32
  {
    (value << bits) | (value >> (32 - bits))
  }

  /** A word as a little-endian machine loads it. */
  function Little(b0: byte, b1: byte, b2: byte, b3: byte): word {
    ((b3 as word) << 24) | ((b2 as word) << 16) | ((b1 as word) << 8) | (b0 as word)
  }

  /** The byte swap of the macro `blk0`. */
  function Swapped(x: word): word {
    (Rotated(x, 24) & 0xFF00FF00) | (Rotated(x, 8) & 0x00FF00FF)
  }

  lemma SwapIsBig(b0: byte, b1: byte, b2: byte, b3: byte)
    ensures Swapped(Little(b0, b1, b2, b3)) == Big(b0, b1, b2, b3)
  {
    hide *;
    var x := Little(b0, b1, b2, b3);
    SwappedIs(x);
    LittleIs(b0, b1, b2, b3);
    BigIs(b0, b1, b2, b3);
    SwapBits(b0, b1, b2, b3);
  }

  lemma SwappedIs(x: word)
    ensures Swapped(x) == (((x << 24) | (x >> 8)) & 0xFF00FF00) | (((x << 8) | (x >> 24)) & 0x00FF00FF)
  {
    Rotations(x);
    hide Rotated;
  }

  lemma LittleIs(b0: byte, b1: byte, b2: byte, b3: byte)
    ensures Little(b0, b1, b2, b3) == ((b3 as word) << 24) | ((b2 as word) << 16) | ((b1 as word) << 8) | (b0 as word)
  {
  }

  lemma BigIs(b0: byte, b1: byte, b2: byte, b3: byte)
    ensures Big(b0, b1, b2, b3) == ((b0 as word) << 24) | ((b1 as word) << 16) | ((b2 as word) << 8) | (b3 as word)
  {
  }

  lemma Rotations(x: word)
    ensures Rotated(x, 24) == (x << 24) | (x >> 8) && Rotated(x, 8) == (x << 8) | (x >> 24)
  {
  }

  lemma SwapBits(b0: byte, b1: byte, b2: byte, b3: byte)
    ensures var x := ((b3 as word) << 24) | ((b2 as word) << 16) | ((b1 as word) << 8) | (b0 as word);
      (((x << 24) | (x >> 8)) & 0xFF00FF00) | (((x << 8) | (x >> 24)) & 0x00FF00FF) ==
      ((b0 as word) << 24) | ((b1 as word) << 16) | ((b2 as word) << 8) | (b3 as word)
  {
  }

  lemma RotatedIsRol(x: word, n: nat)
    requires 0 < n < 32
    ensures Rotated(x, n) == Rol(x, n)
  {
  }

  /** What the macros R0 to R4 add besides the schedule word and the rotation. */
  function Mixed(t: nat, w: word, x: word, y: word): word
    requires t < 80
  {
    if t < 20 then (w & (x ^ y)) ^ y
    else if t < 40 then w ^ x ^ y
    else if t < 60 then ((w | x) & y) | (w & x)
    else w ^ x ^ y
  }

  lemma MixedIsF(t: nat, w: word, x: word, y: word)
    requires t < 80
    ensures Mixed(t, w, x, y) == F(t, w, x, y)
  {
    Choose(w, x, y);
    Majority(w, x, y);
  }

  lemma Choose(w: word, x: word, y: word)
    ensures ((w & (x ^ y)) ^ y) == (w & x) | (!w & y)
  {
  }

  lemma Majority(w: word, x: word, y: word)
    ensures (((w | x) & y) | (w & x)) == (w & x) | (w & y) | (x & y)
  {
  }

  /** The order in which the macros add. */
  function Bumped(z: word, f: word, l: word, k: word, v: word): word {
    z + (f + l + k + v)
  }

  lemma Sums(s: word, f: word, e: word, w: word, k: word)
    ensures Bumped(e, f, w, k, s) == Sum(s, f, e, w, k)
  {
  }

  /** The schedule word of round t lies at t mod 16 of the ring. */
  ghost predicate RingAt(l: seq<word>, m: Block, t: nat)
    requires |l| == 16 && t <= 80
  {
    forall j | 0 <= j < 16 :: l[j] == Cell(m, t, j)
  }

  function Cell(m: Block, t: nat, j: nat): word
    requires t <= 80 && j < 16
  {
    if j < t then W(m, Latest(t, j)) else Little(m[4 * j], m[4 * j + 1], m[4 * j + 2], m[4 * j + 3])
  }

  /** The last round before t whose word is at j. */
  function Latest(t: nat, j: nat): (s: nat)
    requires j < 16 && j < t
    ensures s < t && s % 16 == j && t <= s + 16
  {
    t - 1 - (t - 1 - j) % 16
  }

  lemma LatestAt(t: nat, k: nat)
    requires 16 <= t && 1 <= k <= 16
    ensures Latest(t, (t + 16 - k) % 16) == t - k
  {
  }

  lemma LatestNext(t: nat, j: nat)
    requires j < 16 && j < t + 1
    ensures Latest(t + 1, j) == if j == t % 16 then t else Latest(t, j)
  {
  }

  /** blk0 and blk: the schedule word of round t, written into the ring in place. */
  method Expand(l: array<word>, ghost m: Block, t: nat) returns (w: word)
    requires l.Length == 16 && t < 80 && RingAt(l[..], m, t)
    modifies l
    ensures w == W(m, t) && RingAt(l[..], m, t + 1)
  {
    hide *;
    ghost var was := l[..];
    RingCells(was, m, t);
    if t < 16 {
      First(m, t);
      l[t] := Swapped(l[t]);
      w := l[t];
    } else {
      Later(m, t);
      l[t % 16] := Rotated(l[(t + 13) % 16] ^ l[(t + 8) % 16] ^ l[(t + 2) % 16] ^ l[t % 16], 1);
      w := l[t % 16];
    }
    RingNext(was, m, t, w);
    assert l[..] == was[t % 16 := w];
  }

  /** What blk0 and blk find in the ring. */
  lemma RingCells(l: seq<word>, m: Block, t: nat)
    requires |l| == 16 && t < 80 && RingAt(l, m, t)
    ensures t < 16 ==> l[t] == Little(m[4 * t], m[4 * t + 1], m[4 * t + 2], m[4 * t + 3])
    ensures 16 <= t ==>
      && l[(t + 13) % 16] == W(m, t - 3) && l[(t + 8) % 16] == W(m, t - 8)
      && l[(t + 2) % 16] == W(m, t - 14) && l[t % 16] == W(m, t - 16)
  {
    hide W, Little;
    if t >= 16 {
      LatestAt(t, 3);
      LatestAt(t, 8);
      LatestAt(t, 14);
      LatestAt(t, 16);
    }
    hide Latest;
  }

  lemma First(m: Block, t: nat)
    requires t < 16
    ensures Swapped(Little(m[4 * t], m[4 * t + 1], m[4 * t + 2], m[4 * t + 3])) == W(m, t)
  {
    hide Swapped, Little, Big;
    SwapIsBig(m[4 * t], m[4 * t + 1], m[4 * t + 2], m[4 * t + 3]);
  }

  lemma Later(m: Block, t: nat)
    requires 16 <= t < 80
    ensures Rotated(W(m, t - 3) ^ W(m, t - 8) ^ W(m, t - 14) ^ W(m, t - 16), 1) == W(m, t)
  {
    hide Rotated, Rol;
    RotatedIsRol(W(m, t - 3) ^ W(m, t - 8) ^ W(m, t - 14) ^ W(m, t - 16), 1);
  }

  lemma CellNext(m: Block, t: nat, j: nat)
    requires t < 80 && j < 16
    ensures Cell(m, t + 1, j) == if j == t % 16 then W(m, t) else Cell(m, t, j)
  {
    hide W, Little;
    if j < t + 1 {
      LatestNext(t, j);
    }
    hide Latest;
  }

  lemma RingNext(l: seq<word>, m: Block, t: nat, w: word)
    requires |l| == 16 && t < 80 && RingAt(l, m, t) && w == W(m, t)
    ensures RingAt(l[t % 16 := w], m, t + 1)
  {
    hide W, Cell;
    var n := l[t % 16 := w];
    forall j | 0 <= j < 16
      ensures n[j] == Cell(m, t + 1, j)
    {
      CellNext(m, t, j);
    }
  }

  /** What R0 to R4 make of their arguments z and w. */
  function Summed(t: nat, v: word, w: word, x: word, y: word, z: word, l: word): word
    requires t < 80
  {
    Bumped(z, Mixed(t, w, x, y), l, K(t), Rotated(v, 5))
  }

  /** A macro writes two registers where the standard moves all five: the names move instead. */
  lemma RoundIs(t: nat, v: word, w: word, x: word, y: word, z: word, l: word)
    requires t < 80
    ensures Round(Regs(v, w, x, y, z), t, l) == Regs(Summed(t, v, w, x, y, z, l), v, Rotated(w, 30), x, y)
  {
    hide *;
    MixedIsF(t, w, x, y);
    RotatedIsRol(v, 5);
    RotatedIsRol(w, 30);
    SummedIs(t, v, w, x, y, z, l);
    RoundDef(Regs(v, w, x, y, z), t, l);
  }

  lemma SummedIs(t: nat, v: word, w: word, x: word, y: word, z: word, l: word)
    requires t < 80
    ensures Summed(t, v, w, x, y, z, l) == Sum(Rotated(v, 5), Mixed(t, w, x, y), z, l, K(t))
  {
    hide Mixed, Rotated, K, Sum, Bumped;
    Sums(Rotated(v, 5), Mixed(t, w, x, y), z, l, K(t));
  }

  lemma RoundDef(r: Regs, t: nat, l: word)
    requires t < 80
    ensures Round(r, t, l) == Regs(Sum(Rol(r.a, 5), F(t, r.b, r.c, r.d), r.e, l, K(t)), r.a, Rol(r.b, 30), r.c, r.d)
  {
    hide Sum, Rol, F, K;
  }

  function RegsOf(s: seq<word>): Regs
    requires |s| == 5
  {
    Regs(s[0], s[1], s[2], s[3], s[4])
  }

  lemma RoundsNext(h: Regs, m: Block, t: nat)
    requires t < 80
    ensures Rounds(h, m, t + 1) == Round(Rounds(h, m, t), t, W(m, t)) && Rounds(h, m, 0) == h
  {
    hide W, Round;
  }

  /** memcpy into the workspace, seen as words. */
  method Load(buffer: Block) returns (l: array<word>)
    ensures fresh(l) && l.Length == 16 && RingAt(l[..], buffer, 0)
  {
    hide Little;
    l := new word[16](_ => 0);
    for i := 0 to 16
      invariant forall j | 0 <= j < i ::
          l[j] == Little(buffer[4 * j], buffer[4 * j + 1], buffer[4 * j + 2], buffer[4 * j + 3])
    {
      l[i] := Little(buffer[4 * i], buffer[4 * i + 1], buffer[4 * i + 2], buffer[4 * i + 3]);
    }
  }

  /** SHA1Transform. Five rounds bring the register names back to where they started. */
  method Transform(state: array<word>, buffer: Block)
    requires state.Length == 5
    modifies state
    ensures RegsOf(state[..]) == Compress(old(RegsOf(state[..])), buffer)
  {
    hide *;
    RegsAre(state[..]);
    var l := Load(buffer);
    var a, b, c, d, e := state[0], state[1], state[2], state[3], state[4];
    ghost var h := Regs(a, b, c, d, e);
    RoundsNext(h, buffer, 0);
    var t := 0;
    while t < 80
      invariant 0 <= t <= 80 && t % 5 == 0 && RingAt(l[..], buffer, t)
      invariant Regs(a, b, c, d, e) == Rounds(h, buffer, t) && state[..] == old(state[..])
    {
      e, b := Macro(l, buffer, h, t, a, b, c, d, e);
      d, a := Macro(l, buffer, h, t + 1, e, a, b, c, d);
      c, e := Macro(l, buffer, h, t + 2, d, e, a, b, c);
      b, d := Macro(l, buffer, h, t + 3, c, d, e, a, b);
      a, c := Macro(l, buffer, h, t + 4, b, c, d, e, a);
      t := t + 5;
    }
    state[0] := Plus(state[0], a);
    state[1] := Plus(state[1], b);
    state[2] := Plus(state[2], c);
    state[3] := Plus(state[3], d);
    state[4] := Plus(state[4], e);
    Compressed(h, buffer);
    AddedAre(h, Regs(a, b, c, d, e), state[..]);
  }

  /** R0 to R4: the new z and w. */
  method Macro(l: array<word>, ghost m: Block, ghost h: Regs, t: nat, v: word, w: word, x: word, y: word, z: word)
      returns (z': word, w': word)
    requires l.Length == 16 && t < 80 && RingAt(l[..], m, t) && Regs(v, w, x, y, z) == Rounds(h, m, t)
    modifies l
    ensures RingAt(l[..], m, t + 1) && Regs(z', v, w', x, y) == Rounds(h, m, t + 1)
  {
    hide *;
    var word := Expand(l, m, t);
    RoundIs(t, v, w, x, y, z, word);
    RoundsNext(h, m, t);
    z', w' := Summed(t, v, w, x, y, z, word), Rotated(w, 30);
  }

  lemma Compressed(h: Regs, m: Block)
    ensures Compress(h, m) == Added(h, Rounds(h, m, 80))
  {
    hide Rounds, Added, Plus;
  }

  lemma AddedAre(h: Regs, r: Regs, s: seq<word>)
    requires |s| == 5
    requires s[0] == Plus(h.a, r.a) && s[1] == Plus(h.b, r.b) && s[2] == Plus(h.c, r.c) && s[3] == Plus(h.d, r.d) &&
        s[4] == Plus(h.e, r.e)
    ensures RegsOf(s) == Added(h, r)
  {
    hide Plus;
  }

  lemma RegsAre(s: seq<word>)
    requires |s| == 5
    ensures RegsOf(s) == Regs(s[0], s[1], s[2], s[3], s[4])
  {
  }

  const WORD: nat := 0x1_0000_0000

  /** The bit count after len more bytes: the shifts and the carry of SHA1Update. */
  function Counted(count0: nat, count1: nat, len: nat): (nat, nat)
    requires count0 < WORD && count1 < WORD && len < WORD
  {
    var add := len * 8 % WORD;
    var low := (count0 + add) % WORD;
    (low, ((if low < add then count1 + 1 else count1) % WORD + len / 0x2000_0000) % WORD)
  }

  /** The two words are the bit count modulo 2^64. */
  predicate Counts(count0: nat, count1: nat, bytes: nat) {
    count0 == 8 * bytes % WORD && count1 == 8 * bytes / WORD % WORD
  }

  lemma CountedIsSum(count0: nat, count1: nat, bytes: nat, len: nat)
    requires count0 < WORD && count1 < WORD && len < WORD && Counts(count0, count1, bytes)
    ensures Counts(Counted(count0, count1, len).0, Counted(count0, count1, len).1, bytes + len)
  {
    var q, r := 8 * bytes / WORD, 8 * bytes % WORD;
    var p, add := len / 0x2000_0000, 8 * len % WORD;
    assert 8 * len == p * WORD + add;
    var carry := if r + add < WORD then 0 else 1;
    assert 8 * (bytes + len) == (q + p + carry) * WORD + (r + add - carry * WORD);
    Divided(q + p + carry, r + add - carry * WORD);
    Modded(q, p, carry);
    Carried(r, add);
    assert Counted(count0, count1, len) == (r + add - carry * WORD, (q + p + carry) % WORD);
  }

  /** The sum of two words has wrapped exactly if it is below one of them. */
  lemma Carried(r: nat, add: nat)
    requires r < WORD && add < WORD
    ensures (r + add) % WORD == if r + add < WORD then r + add else r + add - WORD
    ensures (r + add) % WORD < add <==> WORD <= r + add
  {
  }

  lemma Divided(q: nat, r: nat)
    requires r < WORD
    ensures (q * WORD + r) / WORD == q && (q * WORD + r) % WORD == r
  {
  }

  lemma Modded(q: nat, p: nat, carry: nat)
    ensures ((q % WORD + carry) % WORD + p) % WORD == (q + p + carry) % WORD
  {
    assert (q % WORD + carry) % WORD == (q + carry) % WORD;
  }

  lemma Position(count0: nat, count1: nat, bytes: nat)
    requires Counts(count0, count1, bytes)
    ensures count0 / 8 % 64 == bytes % 64
  {
    assert 8 * bytes == (8 * bytes / WORD) * WORD + count0;
    assert bytes == (8 * bytes / WORD) * 0x2000_0000 + count0 / 8;
  }

  /** The bytes of m that make up whole blocks. */
  function Hashed(m: seq<byte>): (n: nat)
    ensures n <= |m| && n % 64 == 0 && |m| - n == |m| % 64
  {
    |m| - |m| % 64
  }

  lemma FoldNext(m: seq<byte>, n: nat)
    requires n % 64 == 0 && n + 64 <= |m|
    ensures Fold(INIT, m[..n + 64]) == Compress(Fold(INIT, m[..n]), m[n..n + 64])
  {
    hide Compress;
    assert m[..n + 64] == m[..n] + m[n..n + 64];
    FoldAppend(INIT, m[..n], m[n..n + 64]);
    FoldOne(Fold(INIT, m[..n]), m[n..n + 64]);
  }

  /** SHA1_CTX. `msg` is history: all that has been passed to SHA1Update. */
  class Sha1Context {
    const state: array<word>
    var count0: nat
    var count1: nat
    const buffer: array<byte>
    ghost var msg: seq<byte>

    ghost predicate Valid()
      reads this, state, buffer
    {
      && state.Length == 5 && buffer.Length == 64 && count0 < WORD && count1 < WORD
      && Counts(count0, count1, |msg|)
      && RegsOf(state[..]) == Fold(INIT, msg[..Hashed(msg)])
      && buffer[..|msg| % 64] == msg[Hashed(msg)..]
    }

    /** SHA1Init. */
    constructor ()
      ensures Valid() && msg == [] && fresh(state) && fresh(buffer)
    {
      state := new word[5](i => if i == 0 then INIT.a else if i == 1 then INIT.b else if i == 2 then INIT.c
          else if i == 3 then INIT.d else INIT.e);
      buffer := new byte[64](_ => 0);
      count0, count1 := 0, 0;
      msg := [];
      new;
      hide Fold;
      assert Hashed(msg) == 0 && msg[..0] == [];
      FoldNone();
    }

    /** The part of SHA1Update that hashes whole blocks: first the one begun in the buffer, then from the data. */
    method HashBlocks(data: seq<byte>, j: nat) returns (i: nat)
      requires state.Length == 5 && buffer.Length == 64 && j == |msg| % 64 && 63 < j + |data| < WORD
      requires RegsOf(state[..]) == Fold(INIT, msg[..Hashed(msg)]) && buffer[..j] == msg[Hashed(msg)..]
      modifies state, buffer
      ensures i <= |data| < i + 64 && (|msg| + i) % 64 == 0
      ensures RegsOf(state[..]) == Fold(INIT, (msg + data)[..|msg| + i])
    {
      hide *;
      HashedIs(msg);
      ghost var total := msg + data;
      i := 64 - j;
      ghost var held := buffer[..j];
      ghost var was := state[..];
      forall k | 0 <= k < i {
        buffer[j + k] := data[k];
      }
      assert buffer[..] == held + data[..i];
      FirstBlock(msg, data, held, i);
      FoldNext(total, Hashed(msg));
      assert state[..] == was;
      Transform(state, buffer[..]);
      NoWrap(|msg|, i, |data|);
      while Another(i, |data|)
        invariant i <= |data| && (|msg| + i) % 64 == 0 && (Another(i, |data|) <==> i + 63 < |data|)
        invariant RegsOf(state[..]) == Fold(INIT, total[..|msg| + i])
        decreases |data| - i
      {
        NextBlock(msg, data, i);
        FoldNext(total, |msg| + i);
        Transform(state, data[i..i + 64]);
        i := i + 64;
        NoWrap(|msg|, i, |data|);
      }
    }

    /** The bit count in SHA1Update, with its carry. */
    method Tally(len: nat)
      requires count0 < WORD && count1 < WORD && Counts(count0, count1, |msg|) && len < WORD
      modifies `count0, `count1
      ensures count0 < WORD && count1 < WORD && Counts(count0, count1, |msg| + len)
    {
      CountedIsSum(count0, count1, |msg|, len);
      CountedIs(count0, count1, len);
      hide Counted, Counts;
      var add := len * 8 % WORD;
      count0 := (count0 + add) % WORD;
      if count0 < add {
        count1 := (count1 + 1) % WORD;
      }
      count1 := (count1 + len / 0x2000_0000) % WORD;
    }

    /**
     SHA1Update. What is in the buffer and what is added make less than 2^32 bytes: with more, the sum that
     decides between hashing and keeping wraps (see BufferFits).
     */
    method Update(data: seq<byte>)
      requires Valid() && |msg| % 64 + |data| < WORD
      modifies `count0, `count1, `msg, state, buffer
      ensures Valid() && msg == old(msg) + data
    {
      hide Valid, Fold, Counts, RegsOf, Hashed;
      Parts();
      Position(count0, count1, |msg|);
      var j := count0 / 8 % 64;
      Tally(|data|);
      var i := 0;
      ghost var held := buffer[..j];
      Begun(msg, data, held);
      if (j + |data|) % WORD > 63 {
        i := HashBlocks(data, j);
        j, held := 0, [];
      }
      Keep(data, i, j);
      Ended(msg, data, i, held);
      msg := msg + data;
      Whole();
    }

    lemma Parts()
      requires Valid()
      ensures state.Length == 5 && buffer.Length == 64 && count0 < WORD && count1 < WORD &&
          Counts(count0, count1, |msg|)
      ensures RegsOf(state[..]) == Fold(INIT, msg[..Hashed(msg)]) && buffer[..|msg| % 64] == msg[Hashed(msg)..]
    {
    }

    lemma Whole()
      requires state.Length == 5 && buffer.Length == 64 && count0 < WORD && count1 < WORD &&
          Counts(count0, count1, |msg|)
      requires RegsOf(state[..]) == Fold(INIT, msg[..Hashed(msg)]) && buffer[..|msg| % 64] == msg[Hashed(msg)..]
      ensures Valid()
    {
    }

    /** The bytes behind the last whole block stay in the buffer. */
    method Keep(data: seq<byte>, i: nat, j: nat)
      requires buffer.Length == 64 && i <= |data| && j + |data| - i <= 64
      modifies buffer
      ensures buffer[..j + |data| - i] == old(buffer[..j]) + data[i..]
    {
      forall k | 0 <= k < |data| - i {
        buffer[j + k] := data[i + k];
      }
    }

    /** The loop of SHA1Final that pads up to the length field. */
    method PadZeros()
      requires Valid()
      modifies `count0, `count1, `msg, state, buffer
      ensures Valid() && exists n: nat :: n < 64 && msg == old(msg) + Zeros(n) && |msg| % 64 == 56
    {
      ghost var n := 0;
      assert msg + Zeros(0) == msg;
      Position(count0, count1, |msg|);
      while count0 % 512 / 8 * 8 != 448
        invariant Valid() && msg == old(msg) + Zeros(n) && n <= Short(|old(msg)|)
        decreases Short(|old(msg)|) - n
      {
        hide Valid, Counts;
        Filled(count0, count1, |msg|, |old(msg)|, n);
        Update([0]);
        assert old(msg) + Zeros(n) + [0] == old(msg) + Zeros(n + 1);
        n := n + 1;
      }
      Filled(count0, count1, |msg|, |old(msg)|, n);
    }

    /** SHA1Final: the digest is the one FIPS 180-1 defines, however the message was cut into updates. */
    method Final() returns (digest: array<byte>)
      requires Valid()
      modifies `count0, `count1, `msg, state, buffer
      ensures digest.Length == 20 && fresh(digest) && digest[..] == Digest(old(msg))
    {
      hide Valid, Fold, Padded, LengthBytes, Octets, RegsOf, Zeros;
      ghost var m := msg;
      var finalcount := LengthField();
      Update([0x80]);
      PadZeros();
      PaddedIs(m, msg);
      Update(finalcount);
      Finished(m);
      digest := Output();
      forall i | 0 <= i < 5 {
        state[i] := 0;
      }
      forall i | 0 <= i < 64 {
        buffer[i] := 0;
      }
    }

    method LengthField() returns (b: seq<byte>)
      requires Valid()
      ensures b == LengthBytes(|msg|)
    {
      b := WordBytes(count1) + WordBytes(count0);
    }

    /** The words of the state, byte by byte. */
    method Output() returns (digest: array<byte>)
      requires state.Length == 5
      ensures fresh(digest) && digest.Length == 20 && digest[..] == Octets(RegsOf(state[..]))
    {
      hide *;
      digest := new byte[20](_ => 0);
      ghost var words := state[..];
      ghost var all := Octets(RegsOf(words));
      for i := 0 to 20
        invariant state[..] == words
        invariant digest[..i] == all[..i]
      {
        OctetsAt(words, i);
        digest[i] := BytesOf(state[i / 4])[i % 4];
      }
    }

    lemma Finished(m: seq<byte>)
      requires Valid() && msg == Padded(m)
      ensures state.Length == 5 && buffer.Length == 64 && RegsOf(state[..]) == Fold(INIT, Padded(m))
    {
      hide Padded, Fold;
      assert msg[..|msg|] == msg;
    }
  }

  lemma OctetsAt(s: seq<word>, k: nat)
    requires |s| == 5 && k < 20
    ensures Octets(RegsOf(s))[k] == BytesOf(s[k / 4])[k % 4]
  {
    hide BytesOf;
    if k < 4 {
    } else if k < 8 {
    } else if k < 12 {
    } else if k < 16 {
    } else {
    }
  }

  lemma PaddedIs(m: seq<byte>, p: seq<byte>)
    requires exists n: nat :: n < 64 && p == m + [0x80] + Zeros(n) && |p| % 64 == 56
    ensures p + LengthBytes(|m|) == Padded(m)
  {
    var n: nat :| n < 64 && p == m + [0x80] + Zeros(n) && |p| % 64 == 56;
    hide Zeros, LengthBytes;
    OneGap(|m| + 1, n, Gap(|m|));
  }

  lemma OneGap(begun: nat, n: nat, k: nat)
    requires n < 64 && k < 64 && (begun + n) % 64 == 56 && (begun + k) % 64 == 56
    ensures n == k
  {
  }

  /** Zero bytes missing before the length field. */
  function Short(n: nat): (k: nat)
    ensures k < 64 && (n + k) % 64 == 56
  {
    (120 - n % 64) % 64
  }

  /** The mask of SHA1Final tells whether the padding is complete. */
  lemma Filled(count0: nat, count1: nat, bytes: nat, begun: nat, n: nat)
    requires count0 < WORD && Counts(count0, count1, bytes) && bytes == begun + n && n <= Short(begun)
    ensures count0 % 512 / 8 * 8 == 448 <==> bytes % 64 == 56
    ensures bytes % 64 == 56 <==> n == Short(begun)
  {
    hide Counts;
    Position(count0, count1, bytes);
    Masked(count0);
    NotTwice(begun, n, Short(begun));
  }

  lemma Masked(count0: nat)
    ensures count0 % 512 / 8 == count0 / 8 % 64
  {
  }

  lemma NotTwice(begun: nat, n: nat, k: nat)
    requires n <= k < 64 && (begun + k) % 64 == 56
    ensures (begun + n) % 64 == 56 <==> n == k
  {
  }

  lemma HashedIs(m: seq<byte>)
    ensures Hashed(m) == |m| - |m| % 64
  {
  }

  lemma CountedIs(count0: nat, count1: nat, len: nat)
    requires count0 < WORD && count1 < WORD && len < WORD
    ensures var add := len * 8 % WORD; var low := (count0 + add) % WORD;
      Counted(count0, count1, len) == (low, ((if low < add then (count1 + 1) % WORD
          else count1) + len / 0x2000_0000) % WORD)
  {
  }

  /** The block begun in the buffer, completed from the data. */
  lemma FirstBlock(msg: seq<byte>, data: seq<byte>, held: seq<byte>, i: nat)
    requires held == msg[Hashed(msg)..] && i == 64 - |msg| % 64 && i <= |data|
    ensures Hashed(msg) % 64 == 0 && Hashed(msg) + 64 == |msg| + i <= |msg + data|
    ensures (msg + data)[Hashed(msg)..Hashed(msg) + 64] == held + data[..i]
    ensures (msg + data)[..Hashed(msg)] == msg[..Hashed(msg)]
  {
  }

  lemma NextBlock(msg: seq<byte>, data: seq<byte>, i: nat)
    requires i + 64 <= |data|
    ensures (msg + data)[|msg| + i..|msg| + i + 64] == data[i..i + 64]
  {
  }

  lemma Begun(msg: seq<byte>, data: seq<byte>, held: seq<byte>)
    requires held == msg[Hashed(msg)..]
    ensures |msg| % 64 + |data| <= 63 ==>
      && Hashed(msg + data) == Hashed(msg) && (msg + data)[..Hashed(msg)] == msg[..Hashed(msg)]
      && (msg + data)[Hashed(msg)..] == held + data[0..] && |msg + data| % 64 == |msg| % 64 + |data|
  {
  }

  lemma Ended(msg: seq<byte>, data: seq<byte>, i: nat, held: seq<byte>)
    requires i <= |data|
    ensures |data| < i + 64 && (|msg| + i) % 64 == 0 ==>
      Hashed(msg + data) == |msg| + i && (msg + data)[|msg| + i..] == data[i..] && |msg + data| % 64 == |data| - i
    ensures [] + data[i..] == data[i..]
  {
  }

  lemma FoldNone()
    ensures Fold(INIT, []) == INIT
  {
  }

  /** `i + 63 < len`, in 32-bit words. */
  predicate Another(i: nat, len: nat) {
    (i + 63) % WORD < len
  }

  /** The index of the loop in SHA1Update does not wrap. */
  lemma NoWrap(had: nat, i: nat, len: nat)
    requires (had + i) % 64 == 0 && i <= len && had % 64 + len < WORD
    ensures Another(i, len) <==> i + 63 < len
  {
    var j := had % 64;
    assert (j + i) % 64 == 0;
    assert j + i <= WORD - 64;
  }

  /**
   With j bytes in the buffer, SHA1Update either goes on to hash or adds bytes that fit the buffer, exactly
   if the two lengths make less than 2^32. Beyond that it copies all of the data behind the j bytes.
   */
  lemma BufferFits(j: nat, len: nat)
    requires j < 64 && len < WORD
    ensures (j + len) % WORD > 63 || j + len < 64 <==> j + len < WORD
  {
  }

  /** One byte in the buffer and 2^32 - 1 more: their sum is 0, so the buffer is taken to have room for all. */
  lemma BufferOverruns()
    ensures var j, len := 1, WORD - 1; (j + len) % WORD <= 63 < j + len
  {
  }
}
