/** Modified UTF-8: string_data_item and the comparison of strings, from DexSwapVerify.cpp and DexUtf. */
module Mutf8 {
  import opened Leb128
  import opened Options

  /** One UTF-16 code unit in the only form that the verifier lets pass. */
  function Enc(u: u2): (b: seq<u1>)
    ensures 1 <= |b| <= 3
    ensures forall i | 0 <= i < |b| :: b[i] != 0
  {
    if u == 0 then [0xc0, 0x80]
    else if u < 0x80 then [u]
    else if u < 0x800 then [0xc0 + u / 0x40, 0x80 + u % 0x40]
    else [0xe0 + u / 0x1000, 0x80 + u / 0x40 % 0x40, 0x80 + u % 0x40]
  }

  function Encode(us: seq<u2>): seq<u1> {
    if us == [] then [] else Enc(us[0]) + Encode(us[1..])
  }

  lemma {:induction false} EncodeAppend(us: seq<u2>, vs: seq<u2>)
    ensures Encode(us + vs) == Encode(us) + Encode(vs)
  {
    if us == [] {
      assert us + vs == vs;
    } else {
      assert (us + vs)[1..] == us[1..] + vs;
      EncodeAppend(us[1..], vs);
    }
  }

  lemma EncodeOne(u: u2)
    ensures Encode([u]) == Enc(u)
  {
  }

  /** No byte of an encoding is a terminator. */
  lemma {:induction false} EncodeNoZero(us: seq<u2>)
    ensures forall i | 0 <= i < |Encode(us)| :: Encode(us)[i] != 0
  {
    if us != [] {
      hide Enc;
      EncodeNoZero(us[1..]);
    }
  }

  /* ---- reading ---- */

  /** b is at pos, as far as the file goes. */
  predicate Matches(file: seq<u1>, pos: nat, b: seq<u1>) {
    forall i | 0 <= i < |b| :: MatchesAt(file, pos, b, i)
  }

  predicate MatchesAt(file: seq<u1>, pos: nat, b: seq<u1>, i: nat)
    requires i < |b|
  {
    At(file, pos + i) == b[i]
  }

  lemma MatchesHead(file: seq<u1>, pos: nat, b: seq<u1>)
    requires Matches(file, pos, b) && b != []
    ensures At(file, pos) == b[0]
  {
    assert MatchesAt(file, pos, b, 0);
  }

  lemma MatchesParts(file: seq<u1>, pos: nat, a: seq<u1>, b: seq<u1>)
    ensures Matches(file, pos, a + b) <==> Matches(file, pos, a) && Matches(file, pos + |a|, b)
  {
    hide At;
    if Matches(file, pos, a + b) {
      forall i | 0 <= i < |a| ensures MatchesAt(file, pos, a, i) {
        assert MatchesAt(file, pos, a + b, i);
      }
      var next := pos + |a|;
      forall i | 0 <= i < |b| ensures MatchesAt(file, next, b, i) {
        assert MatchesAt(file, pos, a + b, |a| + i);
      }
    }
    if Matches(file, pos, a) && Matches(file, pos + |a|, b) {
      forall i | 0 <= i < |a + b| ensures MatchesAt(file, pos, a + b, i) {
        if i < |a| {
          assert MatchesAt(file, pos, a, i);
        } else {
          assert MatchesAt(file, pos + |a|, b, i - |a|);
        }
      }
    }
  }

  /** dexGetUtf16FromUtf8: the code unit at i of a terminated string, and where the next one is. */
  function Get(s: seq<u1>, i: nat): (r: (u2, nat))
    ensures i < r.1 <= i + 3
  {
    var one := At(s, i);
    if one < 0x80 then (one, i + 1)
    else if one / 0x20 % 2 == 0 then (one % 0x20 * 0x40 + At(s, i + 1) % 0x40, i + 2)
    else (one % 0x10 * 0x1000 + At(s, i + 1) % 0x40 * 0x40 + At(s, i + 2) % 0x40, i + 3)
  }

  lemma GetReads(s: seq<u1>, i: nat, u: u2)
    requires Matches(s, i, Enc(u))
    ensures Get(s, i) == (u, i + |Enc(u)|)
  {
    var b := Enc(u);
    assert MatchesAt(s, i, b, 0);
    assert |b| > 1 ==> MatchesAt(s, i, b, 1);
    assert |b| > 2 ==> MatchesAt(s, i, b, 2);
    hide At;
    if u >= 0x800 {
      Three(u);
    } else if u >= 0x80 {
      Two(u);
    }
  }

  lemma Three(u: u2)
    requires u >= 0x800
    ensures var one, two, three := 0xe0 + u / 0x1000, 0x80 + u / 0x40 % 0x40, 0x80 + u % 0x40;
      && one / 0x20 % 2 == 1 && one / 0x10 == 0xe && two / 0x40 == 2 && three / 0x40 == 2
      && one % 0x10 * 0x1000 + two % 0x40 * 0x40 + three % 0x40 == u
  {
    assert u == u / 0x1000 * 0x1000 + u / 0x40 % 0x40 * 0x40 + u % 0x40;
  }

  lemma Two(u: u2)
    requires 0x80 <= u < 0x800
    ensures var one, two := 0xc0 + u / 0x40, 0x80 + u % 0x40;
      && one / 0x20 % 2 == 0 && 0xc <= one / 0x10 <= 0xd && two / 0x40 == 2
      && one % 0x20 * 0x40 + two % 0x40 == u
  {
  }

  /** The code units of a terminated string, as dexGetUtf16FromUtf8 reads them. */
  function Decode(s: seq<u1>, i: nat): seq<u2>
    decreases |s| - i
  {
    if At(s, i) == 0 then [] else [Get(s, i).0] + Decode(s, Get(s, i).1)
  }

  lemma {:induction false} DecodeEncode(us: seq<u2>, s: seq<u1>, i: nat)
    requires Matches(s, i, Encode(us) + [0])
    ensures Decode(s, i) == us
    decreases |us|
  {
    hide At, Get;
    if us == [] {
      assert MatchesAt(s, i, Encode(us) + [0], 0);
    } else {
      var u, rest := us[0], us[1..];
      assert Encode(us) + [0] == Enc(u) + (Encode(rest) + [0]);
      MatchesParts(s, i, Enc(u), Encode(rest) + [0]);
      GetReads(s, i, u);
      assert MatchesAt(s, i, Enc(u), 0);
      DecodeEncode(rest, s, i + |Enc(u)|);
    }
  }

  /** A string that is all of a sequence; its terminator lies behind that. */
  lemma WholeMatches(s: seq<u1>)
    ensures Matches(s, 0, s + [0])
  {
  }

  lemma WholeDecodes(us: seq<u2>)
    ensures Decode(Encode(us), 0) == us
  {
    WholeMatches(Encode(us));
    DecodeEncode(us, Encode(us), 0);
  }

  /* ---- the verifier of string data ---- */

  /** The code unit at pos, if its form is the right one. */
  function UnitAt(file: seq<u1>, pos: nat): Option<u2> {
    var b1, b2, b3 := At(file, pos), At(file, pos + 1), At(file, pos + 2);
    if b1 == 0 then None
    else if b1 < 0x80 then Some(b1)
    else if b1 / 0x10 == 0xc || b1 / 0x10 == 0xd then
      if b2 / 0x40 != 2 then None
      else
        var value := b1 % 0x20 * 0x40 + b2 % 0x40;
        if value != 0 && value < 0x80 then None else Some(value)
    else if b1 / 0x10 == 0xe then
      if b2 / 0x40 != 2 || b3 / 0x40 != 2 then None
      else
        var value := b1 % 0x10 * 0x1000 + b2 % 0x40 * 0x40 + b3 % 0x40;
        if value < 0x800 then None else Some(value)
    else None
  }

  lemma UnitIsEnc(file: seq<u1>, pos: nat)
    requires UnitAt(file, pos).Some?
    ensures Matches(file, pos, Enc(UnitAt(file, pos).value))
  {
    var b1, b2, b3 := At(file, pos), At(file, pos + 1), At(file, pos + 2);
    var u := UnitAt(file, pos).value;
    hide At;
    if b1 >= 0x80 && b1 / 0x10 == 0xe {
      ThreeBack(b1, b2, b3);
      assert Enc(u) == [b1, b2, b3];
    } else if b1 >= 0x80 {
      TwoBack(b1, b2);
      assert Enc(u) == [b1, b2];
    }
  }

  lemma ThreeBack(b1: int, b2: int, b3: int)
    requires b1 / 0x10 == 0xe && b2 / 0x40 == 2 && b3 / 0x40 == 2
    ensures var u := b1 % 0x10 * 0x1000 + b2 % 0x40 * 0x40 + b3 % 0x40;
      0 <= u < 0x1_0000 && b1 == 0xe0 + u / 0x1000 && b2 == 0x80 + u / 0x40 % 0x40 && b3 == 0x80 + u % 0x40
  {
    var u := b1 % 0x10 * 0x1000 + b2 % 0x40 * 0x40 + b3 % 0x40;
    assert u / 0x1000 == b1 % 0x10;
    assert u / 0x40 == b1 % 0x10 * 0x40 + b2 % 0x40;
  }

  lemma TwoBack(b1: int, b2: int)
    requires (b1 / 0x10 == 0xc || b1 / 0x10 == 0xd) && b2 / 0x40 == 2
    ensures var u := b1 % 0x20 * 0x40 + b2 % 0x40;
      0 <= u < 0x800 && b1 == 0xc0 + u / 0x40 && b2 == 0x80 + u % 0x40
  {
  }

  lemma EncIsUnit(file: seq<u1>, pos: nat, u: u2)
    requires Matches(file, pos, Enc(u))
    ensures UnitAt(file, pos) == Some(u)
  {
    var b := Enc(u);
    assert MatchesAt(file, pos, b, 0);
    assert |b| > 1 ==> MatchesAt(file, pos, b, 1);
    assert |b| > 2 ==> MatchesAt(file, pos, b, 2);
    hide At;
    if u >= 0x800 {
      Three(u);
    } else if u >= 0x80 {
      Two(u);
    }
  }

  /** A string_data_item at offset: the number of code units, the units, and a terminator. */
  predicate StringData(file: seq<u1>, offset: nat, us: seq<u2>) {
    && Valid(file, offset) && |us| == Unsigned(file, offset)
    && Matches(file, Next(file, offset), Encode(us) + [0])
  }

  function StringEnd(file: seq<u1>, offset: nat, us: seq<u2>): nat {
    Next(file, offset) + |Encode(us)| + 1
  }

  /** The bytes at one place spell at most one string of a length. */
  lemma {:induction false} PrefixUnique(file: seq<u1>, pos: nat, us: seq<u2>, vs: seq<u2>)
    requires Matches(file, pos, Encode(us)) && Matches(file, pos, Encode(vs)) && |us| <= |vs|
    ensures us <= vs
    decreases |us|
  {
    if us != [] {
      hide At, UnitAt, Enc, Matches;
      MatchesParts(file, pos, Enc(us[0]), Encode(us[1..]));
      MatchesParts(file, pos, Enc(vs[0]), Encode(vs[1..]));
      EncIsUnit(file, pos, us[0]);
      EncIsUnit(file, pos, vs[0]);
      PrefixUnique(file, pos + |Enc(us[0])|, us[1..], vs[1..]);
    }
  }

  /** A string that goes on goes on with a well-formed unit. */
  lemma GoesOn(file: seq<u1>, from: nat, us: seq<u2>, vs: seq<u2>)
    requires Matches(file, from, Encode(us)) && Matches(file, from, Encode(vs)) && |us| < |vs|
    ensures UnitAt(file, from + |Encode(us)|) == Some(vs[|us|]) && us == vs[..|us|]
  {
    hide At, UnitAt, Enc, Matches, Encode;
    PrefixUnique(file, from, us, vs);
    var k := |us|;
    assert vs == us + [vs[k]] + vs[k + 1..];
    EncodeAppend(us + [vs[k]], vs[k + 1..]);
    EncodeAppend(us, [vs[k]]);
    EncodeOne(vs[k]);
    MatchesParts(file, from, Encode(us) + Enc(vs[k]), Encode(vs[k + 1..]));
    MatchesParts(file, from, Encode(us), Enc(vs[k]));
    EncIsUnit(file, from + |Encode(us)|, vs[k]);
  }

  lemma Longer(file: seq<u1>, from: nat, us: seq<u2>)
    requires Matches(file, from, Encode(us)) && UnitAt(file, from + |Encode(us)|).Some?
    ensures var u: u2 := UnitAt(file, from + |Encode(us)|).value;
      Encode(us + [u]) == Encode(us) + Enc(u) && Matches(file, from, Encode(us + [u]))
  {
    hide At, UnitAt, Enc, Matches, Encode;
    var u := UnitAt(file, from + |Encode(us)|).value;
    EncodeAppend(us, [u]);
    EncodeOne(u);
    UnitIsEnc(file, from + |Encode(us)|);
    MatchesParts(file, from, Encode(us), Enc(u));
  }

  /** intraVerifyStringDataItem, one turn of its loop behind the check against the end of the file. */
  method VerifyUnit(file: seq<u1>, pos: nat) returns (ok: bool, data: nat)
    ensures ok <==> UnitAt(file, pos).Some?
    ensures ok ==> data == pos + |Enc(UnitAt(file, pos).value)|
  {
    hide At;
    var byte1: int := At(file, pos);
    data := pos + 1;
    var high := byte1 / 0x10;
    if high == 0 {
      ok := byte1 != 0;
    } else if high < 8 {
      ok := true;
    } else if high == 0xe {
      var byte2: int := At(file, data);
      data := data + 1;
      if byte2 / 0x40 != 2 {
        return false, data;
      }
      var byte3: int := At(file, data);
      data := data + 1;
      if byte3 / 0x40 != 2 {
        return false, data;
      }
      var value := byte1 % 0x10 * 0x1000 + byte2 % 0x40 * 0x40 + byte3 % 0x40;
      ok := value >= 0x800;
    } else if high == 0xc || high == 0xd {
      var byte2: int := At(file, data);
      data := data + 1;
      if byte2 / 0x40 != 2 {
        return false, data;
      }
      var value := byte1 % 0x20 * 0x40 + byte2 % 0x40;
      ok := value == 0 || value >= 0x80;
      if ok {
        TwoBack(byte1, byte2);
      }
    } else {
      ok := false;
    }
  }

  lemma OnlyString(file: seq<u1>, offset: nat, us: seq<u2>, vs: seq<u2>)
    requires StringData(file, offset, us) && StringData(file, offset, vs)
    ensures us == vs
  {
    hide At, Enc, Encode, Matches;
    MatchesParts(file, Next(file, offset), Encode(us), [0]);
    MatchesParts(file, Next(file, offset), Encode(vs), [0]);
    PrefixUnique(file, Next(file, offset), us, vs);
  }

  /** The loop gives up where no string can go on, or end. */
  lemma NoString(file: seq<u1>, offset: nat, us: seq<u2>, vs: seq<u2>)
    requires Matches(file, Next(file, offset), Encode(us)) && |us| <= Unsigned(file, offset)
    requires var data := Next(file, offset) + |Encode(us)|;
      if |us| < Unsigned(file, offset) then UnitAt(file, data).None? else At(file, data) != 0
    ensures !StringData(file, offset, vs)
  {
    if StringData(file, offset, vs) {
      hide At, Enc, Encode, Matches, UnitAt;
      var from := Next(file, offset);
      MatchesParts(file, from, Encode(vs), [0]);
      if |us| < |vs| {
        GoesOn(file, from, us, vs);
      } else {
        PrefixUnique(file, from, us, vs);
        assert us == vs;
        Terminated(file, from + |Encode(vs)|);
      }
    }
  }

  lemma Terminated(file: seq<u1>, pos: nat)
    ensures Matches(file, pos, [0]) <==> At(file, pos) == 0
  {
    if Matches(file, pos, [0]) {
      assert MatchesAt(file, pos, [0], 0);
    }
  }

  /** intraVerifyStringDataItem: null, or the end of the item. The caller refuses an end behind the file's. */
  method VerifyStringData(file: seq<u1>, offset: nat) returns (end: Option<nat>, ghost units: seq<u2>)
    ensures end.Some? <==> exists us: seq<u2> :: StringData(file, offset, us)
    ensures end.Some? ==> StringData(file, offset, units) && end.value == StringEnd(file, offset, units)
  {
    hide At, Enc, Encode, UnitAt, Matches;
    var utf16Size, data, okay := ReadAndVerifyUnsigned(file, offset, true);
    units := [];
    if !okay {
      return None, [];
    }
    var from := data;
    EncodeEmpty(file, from);
    for i := 0 to utf16Size
      invariant |units| == i && Matches(file, from, Encode(units)) && data == from + |Encode(units)|
    {
      ghost var unit := UnitAt(file, data);
      if data >= |file| {
        NothingThere(file, data);
        forall vs: seq<u2> ensures !StringData(file, offset, vs) { NoString(file, offset, units, vs); }
        return None, [];
      }
      var ok, next := VerifyUnit(file, data);
      if !ok {
        forall vs: seq<u2> ensures !StringData(file, offset, vs) { NoString(file, offset, units, vs); }
        return None, [];
      }
      Longer(file, from, units);
      units, data := units + [unit.value], next;
    }
    if At(file, data) != 0 {
      forall vs: seq<u2> ensures !StringData(file, offset, vs) { NoString(file, offset, units, vs); }
      return None, [];
    }
    Terminated(file, data);
    MatchesParts(file, from, Encode(units), [0]);
    end := Some(data + 1);
    assert StringData(file, offset, units);
  }

  lemma EncodeEmpty(file: seq<u1>, pos: nat)
    ensures Encode([]) == [] && Matches(file, pos, [])
  {
  }

  lemma NothingThere(file: seq<u1>, pos: nat)
    requires pos >= |file|
    ensures UnitAt(file, pos).None?
  {
  }
}
