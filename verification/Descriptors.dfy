/** Type descriptors and class names: libdex/DexUtf.cpp. */
module Descriptors {
  import opened Leb128
  import opened Mutf8

  /* ---- what they are, unit by unit ---- */

  predicate Lead(u: u2) {
    0xd800 <= u <= 0xdbff
  }

  predicate Trail(u: u2) {
    0xdc00 <= u <= 0xdfff
  }

  /** '$', '-', '0' to '9', 'A' to 'Z', '_', 'a' to 'z'. */
  predicate PlainAscii(u: int) {
    u == 0x24 || u == 0x2d || 0x30 <= u <= 0x39 || 0x41 <= u <= 0x5a || u == 0x5f || 0x61 <= u <= 0x7a
  }

  /** A unit that is a character of a name by itself: no control, space, layout or special character. */
  predicate Plain(u: u2) {
    if u < 0x80 then PlainAscii(u)
    else 0xa0 < u < 0xfff0 && !Lead(u) && !Trail(u) && !(0x2000 <= u <= 0x200f) && !(0x2028 <= u <= 0x202f)
  }

  const OPEN := '[' as int
  const SEMICOLON := ';' as int
  const SLASH := '/' as int
  const DOT := '.' as int
  const CLASS := 'L' as int
  const VOID := 'V' as int

  /** Unit i of a class name that begins at lo, with its neighbours. */
  predicate Part(us: seq<u2>, lo: nat, i: nat, sep: int)
    requires lo <= i < |us|
  {
    if us[i] == sep then i > lo && us[i - 1] != sep
    else if Lead(us[i]) then i + 1 < |us| && Trail(us[i + 1])
    else if Trail(us[i]) then i > lo && Lead(us[i - 1])
    else Plain(us[i])
  }

  /** Names with one separator between each two, and surrogates in pairs. */
  predicate ClassBody(us: seq<u2>, lo: nat, hi: nat, sep: int) {
    && lo < hi <= |us| && us[hi - 1] != sep
    && forall i | lo <= i < hi :: Part(us, lo, i, sep)
  }

  predicate IsPrimitive(u: int) {
    u in {'B' as int, 'C' as int, 'D' as int, 'F' as int, 'I' as int, 'J' as int, 'S' as int, 'Z' as int}
  }

  /** How many units from k on are '['. */
  function Brackets(us: seq<u2>, k: nat): (n: nat)
    requires k <= |us|
    ensures k + n <= |us| && (k + n < |us| ==> us[k + n] != OPEN)
    ensures forall i | k <= i < k + n :: us[i] == OPEN
    decreases |us| - k
  {
    if k < |us| && us[k] == OPEN then 1 + Brackets(us, k + 1) else 0
  }

  /** From k to the end: a primitive type, a class between 'L' and ';', or void. */
  predicate Base(us: seq<u2>, k: nat, sep: int, voidToo: bool) {
    && k < |us|
    && if IsPrimitive(us[k]) then k + 1 == |us|
       else if us[k] == VOID then voidToo && k + 1 == |us|
       else us[k] == CLASS && us[|us| - 1] == SEMICOLON && ClassBody(us, k + 1, |us| - 1, sep)
  }

  predicate Descriptor(us: seq<u2>, sep: int) {
    var n := Brackets(us, 0);
    n <= 255 && Base(us, n, sep, n == 0)
  }

  /** What dexIsValidTypeDescriptor stands for. */
  predicate TypeDescriptor(us: seq<u2>) {
    Descriptor(us, SLASH)
  }

  predicate ClassName(us: seq<u2>, sep: int) {
    if Brackets(us, 0) > 0 then Descriptor(us, sep) else ClassBody(us, 0, |us|, sep)
  }

  /* ---- what the C code sees ---- */

  /**
   The unit that begins at a byte. What a form of several bytes gives is never ASCII to the C code, which
   has looked at the first byte before; it stands as 0 here, which is in no name.
   */
  function Mark(s: seq<u1>, i: nat): u2 {
    if At(s, i) < 0x80 then At(s, i) else if Get(s, i).0 < 0x80 then 0 else Get(s, i).0
  }

  /** The units of any string from a byte on. */
  function Marks(s: seq<u1>, i: nat): seq<u2>
    decreases |s| - i
  {
    if At(s, i) == 0 then [] else [Mark(s, i)] + Marks(s, Get(s, i).1)
  }

  lemma See(s: seq<u1>, i: nat)
    ensures At(s, i) == 0 <==> Marks(s, i) == []
    ensures At(s, i) != 0 ==> Marks(s, i)[0] == Mark(s, i) && Marks(s, i)[1..] == Marks(s, Get(s, i).1)
    ensures 0 < At(s, i) < 0x80 ==> Mark(s, i) == At(s, i) && Get(s, i).1 == i + 1
    ensures At(s, i) >= 0x80 ==> Mark(s, i) == 0 || Mark(s, i) >= 0x80
  {
  }

  /** The same, in the middle of a string. */
  lemma SeeAt(s: seq<u1>, i: nat, us: seq<u2>, k: nat)
    requires k <= |us| && Marks(s, i) == us[k..]
    ensures At(s, i) == 0 <==> k == |us|
    ensures k < |us| ==> us[k] == Mark(s, i) && Marks(s, Get(s, i).1) == us[k + 1..]
    ensures 0 < At(s, i) < 0x80 ==> Mark(s, i) == At(s, i) && Get(s, i).1 == i + 1
    ensures At(s, i) >= 0x80 ==> Mark(s, i) == 0 || Mark(s, i) >= 0x80
  {
    hide At, Get, Mark, Marks;
    See(s, i);
    if k < |us| {
      assert us[k..][1..] == us[k + 1..];
    }
  }

  lemma MarkIs(s: seq<u1>, i: nat, u: u2)
    requires Matches(s, i, Enc(u))
    ensures At(s, i) != 0 && Mark(s, i) == u
  {
    hide Get;
    GetReads(s, i, u);
    assert MatchesAt(s, i, Enc(u), 0);
  }

  /** In a verified string they are the code units. */
  lemma {:induction false} MarksAre(us: seq<u2>, s: seq<u1>, i: nat)
    requires Matches(s, i, Encode(us) + [0])
    ensures Marks(s, i) == us
    decreases |us|
  {
    hide At, Get, Mark;
    See(s, i);
    if us == [] {
      assert MatchesAt(s, i, Encode(us) + [0], 0);
    } else {
      var u, rest := us[0], us[1..];
      assert Encode(us) + [0] == Enc(u) + (Encode(rest) + [0]);
      MatchesParts(s, i, Enc(u), Encode(rest) + [0]);
      GetReads(s, i, u);
      MarkIs(s, i, u);
      MarksAre(rest, s, i + |Enc(u)|);
    }
  }

  lemma VerifiedMarks(us: seq<u2>)
    ensures Marks(Encode(us), 0) == us
  {
    WholeMatches(Encode(us));
    MarksAre(us, Encode(us), 0);
  }

  /* ---- names ---- */

  const LOW_ASCII: seq<bv32> := [0x0000_0000, 0x03ff_2010, 0x87ff_fffe, 0x07ff_fffe]

  /** The bit of DEX_MEMBER_VALID_LOW_ASCII. */
  predicate TableBit(c: int)
    requires 0 <= c < 0x80
  {
    LOW_ASCII[c / 32] & (1 << c % 32) != 0
  }

  lemma TableIsPlain(c: int)
    requires 0 <= c < 0x80
    ensures TableBit(c) <==> PlainAscii(c)
  {
  }

  /** Whether a character of a name begins at unit k, and how many units it is. */
  function NameAt(us: seq<u2>, k: nat): (n: nat)
    requires k < |us|
    ensures n <= 2 && k + n <= |us|
  {
    if Plain(us[k]) then 1
    else if Lead(us[k]) && k + 1 < |us| && Trail(us[k + 1]) then 2
    else 0
  }

  /** dexIsValidMemberNameUtf8, before unit k of a string with the units us. */
  method IsValidMemberNameUtf8(s: seq<u1>, at: nat, ghost us: seq<u2>, ghost k: nat) returns (ok: bool, next: nat)
    requires k < |us| && Marks(s, at) == us[k..]
    ensures ok <==> NameAt(us, k) != 0
    ensures ok ==> Marks(s, next) == us[k + NameAt(us, k)..]
  {
    hide At, Get, TableBit, Mark, Marks;
    SeeAt(s, at, us, k);
    var c: int := At(s, at);
    if c <= 0x7f {
      TableIsPlain(c);
      return TableBit(c), at + 1;
    }
    ok, next := IsValidMemberNameUtf8Slow(s, at, us, k);
  }

  /** dexIsValidMemberNameUtf8_0. */
  method IsValidMemberNameUtf8Slow(s: seq<u1>, at: nat, ghost us: seq<u2>, ghost k: nat) returns (ok: bool, next: nat)
    requires k < |us| && Marks(s, at) == us[k..] && At(s, at) >= 0x80
    ensures ok <==> NameAt(us, k) != 0
    ensures ok ==> Marks(s, next) == us[k + NameAt(us, k)..]
  {
    hide At, Get, Mark, Marks;
    SeeLong(s, at, us, k);
    var (utf16, ptr) := Get(s, at);
    next := ptr;
    var high := utf16 / 0x100;
    if high == 0x00 {
      return utf16 > 0xa0, next;
    } else if 0xd8 <= high <= 0xdb {
      var (second, further) := Get(s, next);
      next := further;
      return 0xdc00 <= second <= 0xdfff, next;
    } else if 0xdc <= high <= 0xdf {
      return false, next;
    } else if high == 0x20 || high == 0xff {
      var block := utf16 / 8 * 8;
      if block == 0x2000 || block == 0x2008 || block == 0x2028 || block == 0xfff0 || block == 0xfff8 {
        return false, next;
      }
    }
    return true, next;
  }

  /** A form of several bytes, and what is behind it: a trailing surrogate is one by any reading. */
  lemma SeeLong(s: seq<u1>, i: nat, us: seq<u2>, k: nat)
    requires k < |us| && Marks(s, i) == us[k..] && At(s, i) >= 0x80
    ensures us[k] == if Get(s, i).0 < 0x80 then 0 else Get(s, i).0
    ensures Marks(s, Get(s, i).1) == us[k + 1..]
    ensures var next := Get(s, Get(s, i).1);
      0xdc00 <= next.0 <= 0xdfff <==> k + 1 < |us| && Trail(us[k + 1])
    ensures var next := Get(s, Get(s, i).1);
      k + 1 < |us| && Trail(us[k + 1]) ==> Marks(s, next.1) == us[k + 2..]
  {
    hide Marks;
    SeeAt(s, i, us, k);
    SeeAt(s, Get(s, i).1, us, k + 1);
    hide At, Get, Mark;
    MarkLong(s, i);
    MarkTrail(s, Get(s, i).1);
  }

  lemma MarkLong(s: seq<u1>, i: nat)
    requires At(s, i) >= 0x80
    ensures Mark(s, i) == if Get(s, i).0 < 0x80 then 0 else Get(s, i).0
  {
  }

  lemma MarkTrail(s: seq<u1>, i: nat)
    ensures 0xdc00 <= Get(s, i).0 <= 0xdfff <==> At(s, i) != 0 && Trail(Mark(s, i))
  {
  }

  /* ---- descriptors ---- */

  function Separator(dot: bool): int {
    if dot then DOT else SLASH
  }

  /** isValidTypeDescriptorOrClassName, on any string. */
  method IsValid(s: seq<u1>, isClassName: bool, dotSeparator: bool) returns (ok: bool)
    ensures ok <==> if isClassName then ClassName(Marks(s, 0), Separator(dotSeparator))
      else Descriptor(Marks(s, 0), Separator(dotSeparator))
  {
    hide At, Get, Mark, Marks, ClassBody;
    var at, arrayCount := 0, 0;
    ghost var us, k := Marks(s, 0), 0;
    while At(s, at) == OPEN
      invariant k == arrayCount <= |us| && Marks(s, at) == us[k..]
      invariant Brackets(us, 0) == arrayCount + Brackets(us, k)
      decreases |us| - k
    {
      SeeAt(s, at, us, k);
      arrayCount, at, k := arrayCount + 1, at + 1, k + 1;
    }
    SeeAt(s, at, us, k);
    if arrayCount > 255 {
      return false;
    }
    var className := isClassName && arrayCount == 0;
    if !className {
      var c := At(s, at);
      if IsPrimitive(c) || c == VOID || c == CLASS {
        at, k := at + 1, k + 1;
        SeeAt(s, at, us, k);
      }
      if IsPrimitive(c) {
        return At(s, at) == 0;
      } else if c == VOID {
        return arrayCount == 0 && At(s, at) == 0;
      } else if c != CLASS {
        return false;
      }
    }
    ok := ScanBody(s, at, className, dotSeparator, us, k);
  }

  /** The units scanned so far make up whole names. */
  ghost predicate Scanned(us: seq<u2>, lo: nat, k: nat, sep: int) {
    && lo <= k <= |us| && (k > lo ==> !Lead(us[k - 1]))
    && forall i | lo <= i < k :: Part(us, lo, i, sep) && us[i] != SEMICOLON
  }

  /** The end of a name or descriptor whose class name begins at lo. */
  ghost predicate Complete(us: seq<u2>, lo: nat, className: bool, sep: int) {
    if className then ClassBody(us, lo, |us|, sep)
    else |us| > lo && us[|us| - 1] == SEMICOLON && ClassBody(us, lo, |us| - 1, sep)
  }

  lemma NotName(us: seq<u2>, k: nat)
    requires k < |us| && (us[k] == SLASH || us[k] == DOT)
    ensures NameAt(us, k) == 0
  {
  }

  lemma ScanStart(us: seq<u2>, lo: nat, sep: int)
    requires lo <= |us|
    ensures Scanned(us, lo, lo, sep)
  {
  }

  lemma ScanEnd(us: seq<u2>, lo: nat, sep: int, className: bool)
    requires Scanned(us, lo, |us|, sep)
    ensures Complete(us, lo, className, sep) <==> className && |us| > lo && us[|us| - 1] != sep
  {
  }

  lemma ScanSemicolon(us: seq<u2>, lo: nat, k: nat, sep: int, className: bool)
    requires Scanned(us, lo, k, sep) && k < |us| && us[k] == SEMICOLON && (sep == SLASH || sep == DOT)
    ensures Complete(us, lo, className, sep) <==> !className && k > lo && us[k - 1] != sep && k + 1 == |us|
  {
    assert !Part(us, lo, k, sep);
  }

  /** What the next unit must be like. */
  lemma ScanBad(us: seq<u2>, lo: nat, k: nat, sep: int, className: bool)
    requires Scanned(us, lo, k, sep) && k < |us| && us[k] != SEMICOLON
    requires Complete(us, lo, className, sep)
    ensures if us[k] == sep then k > lo && us[k - 1] != sep else NameAt(us, k) != 0
  {
    assert Part(us, lo, k, sep);
  }

  lemma ScanNext(us: seq<u2>, lo: nat, k: nat, sep: int)
    requires Scanned(us, lo, k, sep) && k < |us| && us[k] != SEMICOLON && (sep == SLASH || sep == DOT)
    requires if us[k] == sep then k > lo && us[k - 1] != sep else NameAt(us, k) != 0
    ensures var next := if us[k] == sep then k + 1 else k + NameAt(us, k);
      Scanned(us, lo, next, sep) && (us[next - 1] == sep <==> us[k] == sep)
  {
  }

  /** The last loop of isValidTypeDescriptorOrClassName. */
  method ScanBody(s: seq<u1>, start: nat, isClassName: bool, dotSeparator: bool, ghost us: seq<u2>, ghost lo: nat)
    returns (ok: bool)
    requires lo <= |us| && Marks(s, start) == us[lo..]
    ensures ok <==> Complete(us, lo, isClassName, Separator(dotSeparator))
  {
    hide At, Get, Mark, Marks, Complete, Scanned, NameAt;
    var at, sepOrFirst := start, true;
    ghost var k, sep := lo, Separator(dotSeparator);
    ScanStart(us, lo, sep);
    while true
      invariant lo <= k <= |us| && Marks(s, at) == us[k..] && Scanned(us, lo, k, sep)
      invariant sepOrFirst <==> k == lo || us[k - 1] == sep
      decreases |us| - k
    {
      SeeAt(s, at, us, k);
      var c := At(s, at);
      if c == 0 {
        ScanEnd(us, lo, sep, isClassName);
        return isClassName && !sepOrFirst;
      } else if c == SEMICOLON {
        ScanSemicolon(us, lo, k, sep, isClassName);
        SeeAt(s, at + 1, us, k + 1);
        return !isClassName && !sepOrFirst && At(s, at + 1) == 0;
      } else if c == SLASH || c == DOT {
        if Complete(us, lo, isClassName, sep) {
          ScanBad(us, lo, k, sep, isClassName);
        }
        if dotSeparator != (c == DOT) {
          NotName(us, k);
          return false;
        }
        if sepOrFirst {
          return false;
        }
        sepOrFirst := true;
        ScanNext(us, lo, k, sep);
        at, k := at + 1, k + 1;
      } else {
        if Complete(us, lo, isClassName, sep) {
          ScanBad(us, lo, k, sep, isClassName);
        }
        var valid, next := IsValidMemberNameUtf8(s, at, us, k);
        if !valid {
          return false;
        }
        ScanNext(us, lo, k, sep);
        at, k := next, k + NameAt(us, k);
        sepOrFirst := false;
      }
    }
  }
}
