/** What the bytes of a type descriptor look like, whatever names are in it. */
module Shapes {
  import opened Leb128
  import opened Mutf8
  import opened Descriptors

  /** Bytes of structure: none of them is inside a name. */
  predicate Reserved(b: int) {
    b == 0 || b == OPEN_PAREN || b == CLOSE_PAREN || b == SEMICOLON
  }

  const OPEN_PAREN: u1 := '(' as int
  const CLOSE_PAREN: u1 := ')' as int

  predicate Unreserved(d: seq<int>) {
    forall i | 0 <= i < |d| :: !Reserved(d[i])
  }

  /** n times '[', and then a primitive type, void by itself, or a class that ends with the only ';'. */
  predicate Shaped(d: seq<u1>, n: nat) {
    && n < |d| && (forall i | 0 <= i < n :: d[i] == OPEN)
    && if d[n] == CLASS then n + 1 < |d| && d[|d| - 1] == SEMICOLON && Unreserved(d[n + 1..|d| - 1])
       else n + 1 == |d| && (IsPrimitive(d[n]) || (d[n] == VOID && n == 0))
  }

  lemma EncUnreserved(u: u2)
    requires !Reserved(u)
    ensures Unreserved(Enc(u))
  {
  }

  lemma {:induction false} EncodeUnreserved(us: seq<u2>)
    requires Unreserved(us)
    ensures Unreserved(Encode(us))
  {
    if us != [] {
      hide Enc, Reserved;
      EncUnreserved(us[0]);
      EncodeUnreserved(us[1..]);
    }
  }

  lemma {:induction false} EncodeAscii(us: seq<u2>)
    requires forall i | 0 <= i < |us| :: 0 < us[i] < 0x80
    ensures Encode(us) == us
  {
    if us != [] {
      EncodeAscii(us[1..]);
      assert us == [us[0]] + us[1..];
    }
  }

  lemma BodyUnreserved(us: seq<u2>, lo: nat, hi: nat, sep: int)
    requires ClassBody(us, lo, hi, sep) && sep == SLASH
    ensures Unreserved(us[lo..hi])
  {
    forall i | 0 <= i < hi - lo ensures !Reserved(us[lo..hi][i]) {
      assert Part(us, lo, lo + i, sep);
    }
  }

  lemma DescriptorShape(us: seq<u2>)
    requires TypeDescriptor(us)
    ensures Shaped(Encode(us), Brackets(us, 0))
  {
    hide Encode, ClassBody, Brackets, Reserved, Unreserved;
    var n := Brackets(us, 0);
    if us[n] == CLASS {
      ClassShape(us, n);
    } else {
      EncodeAscii(us);
    }
  }

  lemma BodyNotEmpty(us: seq<u2>, lo: nat, hi: nat, sep: int)
    requires ClassBody(us, lo, hi, sep)
    ensures lo < hi <= |us|
  {
  }

  lemma ClassShape(us: seq<u2>, n: nat)
    requires Base(us, n, SLASH, n == 0) && us[n] == CLASS && (forall i | 0 <= i < n :: us[i] == OPEN)
    ensures Shaped(Encode(us), n)
  {
    hide Encode, ClassBody, Reserved, Unreserved;
    var end := |us| - 1;
    BodyNotEmpty(us, n + 1, end, SLASH);
    var head, body := us[..n + 1], us[n + 1..end];
    EncodeAscii(head);
    BodyUnreserved(us, n + 1, end, SLASH);
    EncodeUnreserved(body);
    assert us == head + body + [SEMICOLON];
    EncodeAppend(head + body, [SEMICOLON]);
    EncodeAppend(head, body);
    EncodeAscii([SEMICOLON]);
    var d := Encode(us);
    assert d == head + Encode(body) + [SEMICOLON];
    assert d[n + 1..|d| - 1] == Encode(body);
  }

  lemma OneSemicolon(d: seq<u1>, n: nat)
    requires Shaped(d, n) && d[n] == CLASS
    ensures forall i | n < i < |d| - 1 :: d[i] != SEMICOLON
  {
    var body := d[n + 1..|d| - 1];
    forall i | n < i < |d| - 1 ensures d[i] != SEMICOLON {
      assert body[i - n - 1] == d[i];
    }
  }

  predicate Agree(d: seq<u1>, e: seq<u1>) {
    forall i | 0 <= i < |d| && i < |e| :: d[i] == e[i]
  }

  /** The structure alone says where a descriptor ends. */
  lemma SameEnd(d: seq<u1>, n: nat, e: seq<u1>, m: nat)
    requires Shaped(d, n) && Shaped(e, m) && Agree(d, e)
    ensures |d| == |e|
  {
    hide Reserved, Unreserved;
    assert n == m;
    if d[n] == CLASS {
      OneSemicolon(d, n);
      OneSemicolon(e, n);
    }
  }

  /** Two descriptors that one string goes on with are the same: descriptors end themselves. */
  lemma SelfDelimiting(d: seq<u1>, n: nat, e: seq<u1>, m: nat, x: seq<u1>, y: seq<u1>)
    requires Shaped(d, n) && Shaped(e, m) && d + x == e + y
    ensures d == e && x == y
  {
    hide Shaped;
    assert Agree(d, e) by {
      assert forall i | 0 <= i < |d| :: d[i] == (d + x)[i];
      assert forall i | 0 <= i < |e| :: e[i] == (e + y)[i];
    }
    SameEnd(d, n, e, m);
    assert x == (d + x)[|d|..] && y == (e + y)[|e|..];
  }
}
