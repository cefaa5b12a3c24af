/** Lexicographic order, a proper prefix first: what strcmp does with bytes and dexUtf8Cmp with code units. */
module Lexical {
  function Sign(x: int): (s: int)
    ensures -1 <= s <= 1
  {
    if x < 0 then -1 else if x > 0 then 1 else 0
  }

  function Cmp(a: seq<int>, b: seq<int>): (r: int)
    ensures -1 <= r <= 1
  {
    if a == [] && b == [] then 0
    else if a == [] then -1
    else if b == [] then 1
    else if a[0] != b[0] then Sign(a[0] - b[0])
    else Cmp(a[1..], b[1..])
  }

  lemma {:induction false} CmpCommon(p: seq<int>, a: seq<int>, b: seq<int>)
    ensures Cmp(p + a, p + b) == Cmp(a, b)
  {
    if p == [] {
      assert p + a == a && p + b == b;
    } else {
      assert (p + a)[1..] == p[1..] + a && (p + b)[1..] == p[1..] + b;
      CmpCommon(p[1..], a, b);
    }
  }

  lemma {:induction false} CmpSwapped(a: seq<int>, b: seq<int>)
    ensures Cmp(b, a) == -Cmp(a, b)
  {
    if a != [] && b != [] {
      CmpSwapped(a[1..], b[1..]);
    }
  }

  lemma {:induction false} CmpEqual(a: seq<int>, b: seq<int>)
    ensures Cmp(a, b) == 0 <==> a == b
  {
    if a != [] && b != [] {
      CmpEqual(a[1..], b[1..]);
      assert a == [a[0]] + a[1..] && b == [b[0]] + b[1..];
    }
  }

  lemma {:induction false} CmpTransitive(a: seq<int>, b: seq<int>, c: seq<int>)
    requires Cmp(a, b) < 0 && Cmp(b, c) < 0
    ensures Cmp(a, c) < 0
  {
    if a != [] && a[0] == b[0] == c[0] {
      CmpTransitive(a[1..], b[1..], c[1..]);
    }
  }

  lemma CmpHead(a: seq<int>, b: seq<int>, k: nat, x: seq<int>, y: seq<int>)
    requires k < |a| && k < |b| && a[..k] == b[..k] && a[k] != b[k]
    ensures Cmp(a + x, b + y) == Sign(a[k] - b[k])
  {
    assert a + x == a[..k] + (a[k..] + x) && b + y == b[..k] + (b[k..] + y);
    CmpCommon(a[..k], a[k..] + x, b[k..] + y);
  }

  /** The length of the longest common prefix. */
  function FirstDiff(a: seq<int>, b: seq<int>): (k: nat)
    ensures k <= |a| && k <= |b| && a[..k] == b[..k]
    ensures k < |a| && k < |b| ==> a[k] != b[k]
  {
    if a == [] || b == [] || a[0] != b[0] then 0
    else
      var k := FirstDiff(a[1..], b[1..]);
      assert a[..k + 1] == [a[0]] + a[1..][..k] && b[..k + 1] == [b[0]] + b[1..][..k];
      k + 1
  }

  /** A comparison is decided where the two first differ. */
  lemma CmpAtDiff(a: seq<int>, b: seq<int>)
    ensures var k := FirstDiff(a, b);
      Cmp(a, b) == if k == |a| && k == |b| then 0 else if k == |a| then -1 else if k == |b| then 1
          else Sign(a[k] - b[k])
  {
    hide FirstDiff;
    var k := FirstDiff(a, b);
    assert a == a[..k] + a[k..] && b == b[..k] + b[k..];
    CmpCommon(a[..k], a[k..], b[k..]);
  }
}

/** The order of strings: dexUtf8Cmp against strcmp. */
module StringOrder {
  import opened Leb128
  import opened Mutf8
  import opened Lexical

  /** dexUtf8Cmp. */
  method Utf8Cmp(s1: seq<u1>, s2: seq<u1>) returns (r: int)
    ensures Sign(r) == Cmp(Decode(s1, 0), Decode(s2, 0))
  {
    hide At, Get;
    var i, j := 0, 0;
    while true
      invariant Cmp(Decode(s1, 0), Decode(s2, 0)) == Cmp(Decode(s1, i), Decode(s2, j))
      decreases |s1| - i
    {
      if At(s1, i) == 0 {
        if At(s2, j) == 0 {
          return 0;
        }
        return -1;
      } else if At(s2, j) == 0 {
        return 1;
      }
      Inside(s1, i);
      var (utf1, next1) := Get(s1, i);
      var (utf2, next2) := Get(s2, j);
      assert Decode(s1, i)[1..] == Decode(s1, next1) && Decode(s2, j)[1..] == Decode(s2, next2);
      var diff := utf1 - utf2;
      if diff != 0 {
        return diff;
      }
      i, j := next1, next2;
    }
  }

  lemma Inside(s: seq<u1>, i: nat)
    requires At(s, i) != 0
    ensures i < |s|
  {
  }

  /** Where an encoding stands among others: by its unit, only that 0 comes behind the one-byte units. */
  function Key(u: u2): int {
    if u == 0 then 0xff else 2 * u
  }

  lemma FirstByte(u: u2, v: u2)
    requires Enc(u)[0] != Enc(v)[0]
    ensures Sign(Enc(u)[0] as int - Enc(v)[0]) == Sign(Key(u) - Key(v))
  {
    Lead(u);
    Lead(v);
    hide Enc;
    var b, c := Enc(u)[0], Enc(v)[0];
    if 0x80 <= u < 0x800 && 0x80 <= v < 0x800 {
      assert b == 0xc0 + u / 0x40 && c == 0xc0 + v / 0x40;
    }
    if u >= 0x800 && v >= 0x800 {
      assert b == 0xe0 + u / 0x1000 && c == 0xe0 + v / 0x1000;
    }
  }

  lemma Lead(u: u2)
    ensures var b := Enc(u)[0];
      if u == 0 then b == 0xc0
      else if u < 0x80 then b == u
      else if u < 0x800 then b == 0xc0 + u / 0x40 && 0xc2 <= b < 0xe0
      else b == 0xe0 + u / 0x1000 && 0xe0 <= b
  {
  }

  lemma LaterBytes(u: u2, v: u2)
    requires Enc(u)[0] == Enc(v)[0] && u != v
    ensures u != 0 && v != 0 && |Enc(u)| == |Enc(v)| >= 2 && (u < 0x800 <==> v < 0x800) &&
        (u >= 0x800 ==> |Enc(u)| == 3)
    ensures u < 0x800 ==> Enc(u)[1] as int - Enc(v)[1] == u - v
    ensures u >= 0x800 ==> Enc(u)[1] as int - Enc(v)[1] == u / 0x40 - v / 0x40
    ensures u >= 0x800 && u / 0x40 == v / 0x40 ==> Enc(u)[2] as int - Enc(v)[2] == u - v
  {
    Lead(u);
    Lead(v);
    if u >= 0x800 {
      assert u / 0x40 / 0x40 == u / 0x1000 && v / 0x40 / 0x40 == v / 0x1000;
    }
  }

  /** The first byte that differs decides between the encodings of two units. */
  lemma UnitOrder(u: u2, v: u2, x: seq<int>, y: seq<int>)
    requires u != v
    ensures Cmp(Enc(u) + x, Enc(v) + y) == Sign(Key(u) - Key(v))
  {
    hide Enc, Cmp;
    var a, b := Enc(u), Enc(v);
    if a[0] != b[0] {
      FirstByte(u, v);
      CmpHead(a, b, 0, x, y);
    } else {
      LaterBytes(u, v);
      if a[1] != b[1] {
        CmpHead(a, b, 1, x, y);
      } else {
        assert a[..2] == b[..2] && a[2] != b[2];
        CmpHead(a, b, 2, x, y);
      }
    }
  }

  /** The first units that differ are U+0000 and a one-byte unit. */
  predicate ZeroMeetsAscii(us: seq<u2>, vs: seq<u2>) {
    var k := FirstDiff(us, vs);
    k < |us| && k < |vs| && ((us[k] == 0 && vs[k] < 0x80) || (vs[k] == 0 && us[k] < 0x80))
  }

  lemma {:induction false} EncodePrefix(p: seq<u2>, us: seq<u2>, vs: seq<u2>)
    ensures Cmp(Encode(p + us), Encode(p + vs)) == Cmp(Encode(us), Encode(vs))
  {
    hide Encode;
    EncodeAppend(p, us);
    EncodeAppend(p, vs);
    CmpCommon(Encode(p), Encode(us), Encode(vs));
  }

  /**
   strcmp and dexUtf8Cmp order two strings alike, unless U+0000 in one meets a one-byte unit in the other
   where they first differ. So the claim that one stands in for the other is true of strings without U+0000.
   */
  lemma OrderAgrees(us: seq<u2>, vs: seq<u2>)
    ensures Cmp(Encode(us), Encode(vs)) == Cmp(us, vs) <==> !ZeroMeetsAscii(us, vs)
  {
    hide FirstDiff, Encode, Enc;
    var k := FirstDiff(us, vs);
    CmpAtDiff(us, vs);
    assert us == us[..k] + us[k..] && vs == vs[..k] + vs[k..];
    EncodePrefix(us[..k], us[k..], vs[k..]);
    DiffDecides(us[k..], vs[k..]);
  }

  lemma DiffDecides(us: seq<u2>, vs: seq<u2>)
    requires us != [] && vs != [] ==> us[0] != vs[0]
    ensures Cmp(Encode(us), Encode(vs)) ==
      if us == [] && vs == [] then 0 else if us == [] then -1 else if vs == [] then 1 else Sign(Key(us[0]) - Key(vs[0]))
  {
    hide Enc;
    if us != [] && vs != [] {
      UnitOrder(us[0], vs[0], Encode(us[1..]), Encode(vs[1..]));
    }
  }

  /** The smallest strings that the two orders disagree on: U+0000, and U+0001. */
  lemma ZeroIsMisplaced()
    ensures Encode([0]) == [0xc0, 0x80] && Encode([1]) == [1]
    ensures Cmp([0], [1]) == -1 && Cmp(Encode([0]), Encode([1])) == 1
  {
    EncodeOne(0);
    EncodeOne(1);
  }
}
