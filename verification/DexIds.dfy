/**
 The string, type and prototype ids of a DEX file: what the cross-verifiers of DexSwapVerify.cpp ask of
 them, and the accessors of DexFile.h that later trust the answer.
 */
module DexIds {
  import opened CStrings
  import opened Leb128
  import opened Mutf8
  import opened Options
  import opened Lexical
  import opened StringOrder
  import opened Descriptors
  import opened Shapes

  datatype Proto = Proto(shortyIdx: nat, returnTypeIdx: nat, parametersOff: nat)

  /**
   A file, with its id tables. `stringData` and `typeLists` are what the first pass has left in the data
   map: where it has seen string data, and type lists, these with what they hold.
   */
  datatype Dex = Dex(bytes: seq<u1>, strings: seq<nat>, types: seq<nat>, protos: seq<Proto>,
                     stringData: set<nat>, typeLists: map<nat, seq<nat>>)

  ghost predicate IsStringData(dex: Dex, offset: nat) {
    exists us: seq<u2> :: StringData(dex.bytes, offset, us) && StringEnd(dex.bytes, offset, us) <= |dex.bytes|
  }

  predicate IndicesOk(dex: Dex, p: Proto) {
    p.shortyIdx < |dex.strings| && p.returnTypeIdx < |dex.types|
  }

  predicate ListOk(dex: Dex, list: seq<nat>) {
    forall k | 0 <= k < |list| :: list[k] < |dex.types|
  }

  /** What the first pass establishes: indices are in range, and the data map tells the truth. */
  ghost predicate Loaded(dex: Dex) {
    && (forall i | 0 <= i < |dex.types| :: dex.types[i] < |dex.strings|)
    && (forall i | 0 <= i < |dex.protos| :: IndicesOk(dex, dex.protos[i]))
    && (forall offset | offset in dex.typeLists :: ListOk(dex, dex.typeLists[offset]))
    && forall offset | offset in dex.stringData :: IsStringData(dex, offset)
  }

  /* ---- strings ---- */

  /** Behind the first byte without a high bit. */
  function SkipLength(file: seq<u1>, pos: nat): nat
    decreases |file| - pos
  {
    if At(file, pos) > 0x7f then SkipLength(file, pos + 1) else pos + 1
  }

  /** dexGetStringData. */
  method GetStringData(file: seq<u1>, offset: nat) returns (ptr: nat)
    ensures ptr == SkipLength(file, offset)
  {
    ptr := offset;
    var b := At(file, ptr);
    ptr := ptr + 1;
    while b > 0x7f
      invariant ptr > 0 && b == At(file, ptr - 1) && SkipLength(file, offset) == SkipLength(file, ptr - 1)
      decreases |file| - ptr, b
    {
      b := At(file, ptr);
      ptr := ptr + 1;
    }
  }

  /** The accessor, which knows no bound on the length's size, finds the units where the verifier has. */
  lemma SkipIsNext(file: seq<u1>, pos: nat)
    requires Valid(file, pos)
    ensures SkipLength(file, pos) == Next(file, pos)
  {
    hide At;
    var n := Size(file, pos);
    if n > 1 {
      assert SkipLength(file, pos) == SkipLength(file, pos + 1);
      if n > 2 {
        assert SkipLength(file, pos + 1) == SkipLength(file, pos + 2);
        if n > 3 {
          assert SkipLength(file, pos + 2) == SkipLength(file, pos + 3);
          if n > 4 {
            assert SkipLength(file, pos + 3) == SkipLength(file, pos + 4);
          }
        }
      }
    }
  }

  lemma {:induction false} CStringIs(file: seq<u1>, pos: nat, s: seq<u1>)
    requires Matches(file, pos, s + [0]) && forall i | 0 <= i < |s| :: s[i] != 0
    ensures CString(file, pos) == s
    decreases |s|
  {
    MatchesHead(file, pos, s + [0]);
    if s != [] {
      var head, rest := [s[0]], s[1..] + [0];
      assert s + [0] == head + rest;
      MatchesParts(file, pos, head, rest);
      CStringIs(file, pos + 1, s[1..]);
    }
  }

  /** dexStringById. */
  function StringById(dex: Dex, i: nat): (s: seq<u1>)
    requires i < |dex.strings|
    ensures forall k | 0 <= k < |s| :: s[k] != 0
  {
    CString(dex.bytes, SkipLength(dex.bytes, dex.strings[i]))
  }

  /** dexStringByTypeIdx. */
  function StringByTypeIdx(dex: Dex, i: nat): (s: seq<u1>)
    requires i < |dex.types| && dex.types[i] < |dex.strings|
    ensures forall k | 0 <= k < |s| :: s[k] != 0
  {
    StringById(dex, dex.types[i])
  }

  function Units(dex: Dex, i: nat): seq<u2>
    requires i < |dex.strings|
  {
    Decode(StringById(dex, i), 0)
  }

  lemma VerifiedString(dex: Dex, i: nat)
    requires Loaded(dex) && i < |dex.strings| && dex.strings[i] in dex.stringData
    ensures StringById(dex, i) == Encode(Units(dex, i))
  {
    hide SkipLength, Next, Valid, Encode, CString, Decode, Matches;
    assert IsStringData(dex, dex.strings[i]);
    var offset := dex.strings[i];
    var us: seq<u2> :| StringData(dex.bytes, offset, us);
    SkipIsNext(dex.bytes, offset);
    EncodeNoZero(us);
    CStringIs(dex.bytes, Next(dex.bytes, offset), Encode(us));
    WholeDecodes(us);
  }

  lemma VerifiedUnits(dex: Dex, i: nat)
    requires Loaded(dex) && i < |dex.strings| && dex.strings[i] in dex.stringData
    ensures Marks(StringById(dex, i), 0) == Units(dex, i)
  {
    hide Loaded, StringById, Encode, Marks;
    VerifiedString(dex, i);
    VerifiedMarks(Units(dex, i));
  }

  /* ---- string_ids ---- */

  /** The string is in the data map, and behind the one before it. */
  predicate StringIdOk(dex: Dex, i: nat)
    requires i < |dex.strings|
  {
    && dex.strings[i] in dex.stringData
    && (i > 0 ==> Cmp(Units(dex, i - 1), Units(dex, i)) < 0)
  }

  ghost predicate StringIdsOk(dex: Dex) {
    forall i | 0 <= i < |dex.strings| :: StringIdOk(dex, i)
  }

  /** crossVerifyStringIdItem. */
  method CrossVerifyStringId(dex: Dex, i: nat) returns (ok: bool)
    requires i < |dex.strings|
    ensures ok <==> StringIdOk(dex, i)
  {
    if dex.strings[i] !in dex.stringData {
      return false;
    }
    if i > 0 {
      var s0, s1 := StringById(dex, i - 1), StringById(dex, i);
      var diff := Utf8Cmp(s0, s1);
      if diff >= 0 {
        return false;
      }
    }
    return true;
  }

  /* ---- type_ids ---- */

  /** The string is a type descriptor, and its index above that of the type before. */
  predicate TypeIdOk(dex: Dex, i: nat)
    requires i < |dex.types| && dex.types[i] < |dex.strings|
  {
    && TypeDescriptor(Marks(StringByTypeIdx(dex, i), 0))
    && (i > 0 ==> dex.types[i - 1] < dex.types[i])
  }

  ghost predicate TypeIdsOk(dex: Dex) {
    forall i | 0 <= i < |dex.types| :: dex.types[i] < |dex.strings| && TypeIdOk(dex, i)
  }

  /** crossVerifyTypeIdItem. It does not matter whether the strings have passed already. */
  method CrossVerifyTypeId(dex: Dex, i: nat) returns (ok: bool)
    requires i < |dex.types| && dex.types[i] < |dex.strings|
    ensures ok <==> TypeIdOk(dex, i)
  {
    var valid := IsValid(StringByTypeIdx(dex, i), false, false);
    if !valid {
      return false;
    }
    if i > 0 {
      if dex.types[i - 1] >= dex.types[i] {
        return false;
      }
    }
    return true;
  }

  /* ---- proto_ids ---- */

  predicate HasList(dex: Dex, i: nat)
    requires i < |dex.protos|
  {
    dex.protos[i].parametersOff == 0 || dex.protos[i].parametersOff in dex.typeLists
  }

  /** dexGetProtoParameters: no list is an empty one. */
  function Parameters(dex: Dex, i: nat): seq<nat>
    requires i < |dex.protos| && HasList(dex, i)
  {
    var off := dex.protos[i].parametersOff;
    if off == 0 then [] else dex.typeLists[off]
  }

  /** dexParameterIterator. */
  class ParameterIterator {
    const parameters: seq<nat>
    const parameterCount: nat
    var cursor: nat

    ghost predicate Valid()
      reads this
    {
      parameterCount == |parameters| && cursor <= parameterCount
    }

    ghost function Left(): seq<nat>
      requires Valid()
      reads this
    {
      parameters[cursor..]
    }

    /** dexParameterIteratorInit. */
    constructor (list: seq<nat>)
      ensures Valid() && Left() == list
    {
      parameters := list;
      parameterCount := |list|;
      cursor := 0;
    }

    /** dexParameterIteratorNextIndex: None is kDexNoIndex. */
    method NextIndex() returns (idx: Option<nat>)
      requires Valid()
      modifies this
      ensures Valid()
      ensures if old(Left()) == [] then idx == None && Left() == []
        else idx == Some(old(Left())[0]) && Left() == old(Left())[1..]
    {
      if cursor >= parameterCount {
        return None;
      }
      idx := Some(parameters[cursor]);
      cursor := cursor + 1;
    }
  }

  /** The letter of a type in a shorty. */
  function ShortyOf(d: seq<u1>): int {
    if d == [] then 0 else if d[0] == OPEN then CLASS else d[0]
  }

  /** Whether a letter goes with a type. */
  predicate ShortyFits(shorty: int, d: seq<u1>, isReturnType: bool) {
    if IsPrimitive(shorty) || (isReturnType && shorty == VOID) then d == [shorty]
    else shorty == CLASS && d != [] && (d[0] == CLASS || d[0] == OPEN)
  }

  /** Of a type descriptor only its own letter does, and V for return types only. */
  lemma FitsIsLetter(shorty: int, d: seq<u1>, isReturnType: bool, n: nat)
    requires Shaped(d, n)
    ensures ShortyFits(shorty, d, isReturnType) <==> shorty == ShortyOf(d) && (isReturnType || shorty != VOID)
  {
  }

  /** shortyDescMatch, on any string. */
  method ShortyDescMatch(shorty: int, d: seq<u1>, isReturnType: bool) returns (ok: bool)
    requires forall k | 0 <= k < |d| :: d[k] != 0
    ensures ok <==> ShortyFits(shorty, d, isReturnType)
  {
    if shorty == VOID && !isReturnType {
      return false;
    }
    if shorty == VOID || IsPrimitive(shorty) {
      return At(d, 0) == shorty && At(d, 1) == 0;
    } else if shorty == CLASS {
      return At(d, 0) == CLASS || At(d, 0) == OPEN;
    } else {
      return false;
    }
  }

  /** Letter k of a shorty goes with parameter k. */
  predicate LetterOk(dex: Dex, shorty: seq<u1>, list: seq<nat>, k: nat)
    requires k < |list| && list[k] < |dex.types| && dex.types[list[k]] < |dex.strings|
  {
    k + 1 < |shorty| && ShortyFits(shorty[k + 1], StringByTypeIdx(dex, list[k]), false)
  }

  predicate Sound(dex: Dex) {
    && (forall i | 0 <= i < |dex.types| :: dex.types[i] < |dex.strings|)
    && (forall i | 0 <= i < |dex.protos| :: IndicesOk(dex, dex.protos[i]))
  }

  predicate ShortyOk(dex: Dex, shorty: seq<u1>, returnTypeIdx: nat, list: seq<nat>)
    requires Sound(dex) && returnTypeIdx < |dex.types| && ListOk(dex, list)
  {
    && |shorty| == 1 + |list| && ShortyFits(shorty[0], StringByTypeIdx(dex, returnTypeIdx), true)
    && forall k | 0 <= k < |list| :: LetterOk(dex, shorty, list, k)
  }

  /** What prototypes are ordered by. */
  function SortKey(dex: Dex, i: nat): seq<int>
    requires i < |dex.protos| && HasList(dex, i)
  {
    [dex.protos[i].returnTypeIdx] + Parameters(dex, i)
  }

  ghost predicate ProtoIdOk(dex: Dex, i: nat)
    requires Loaded(dex) && i < |dex.protos|
  {
    var p := dex.protos[i];
    && HasList(dex, i)
    && ShortyOk(dex, StringById(dex, p.shortyIdx), p.returnTypeIdx, Parameters(dex, i))
    && (i > 0 ==> HasList(dex, i - 1) && Cmp(SortKey(dex, i - 1), SortKey(dex, i)) < 0)
  }

  ghost predicate ProtoIdsOk(dex: Dex)
    requires Loaded(dex)
  {
    forall i | 0 <= i < |dex.protos| :: ProtoIdOk(dex, i)
  }

  lemma TypeShape(dex: Dex, i: nat)
    requires Loaded(dex) && StringIdsOk(dex) && TypeIdsOk(dex) && i < |dex.types|
    ensures Shaped(StringByTypeIdx(dex, i), Brackets(Units(dex, dex.types[i]), 0))
  {
    hide Shaped, StringById, TypeDescriptor, Marks;
    assert TypeIdOk(dex, i);
    assert StringIdOk(dex, dex.types[i]);
    VerifiedString(dex, dex.types[i]);
    VerifiedUnits(dex, dex.types[i]);
    DescriptorShape(Units(dex, dex.types[i]));
  }

  /** The part of crossVerifyProtoIdItem that goes through the shorty. */
  method VerifyShorty(dex: Dex, i: nat) returns (ok: bool)
    requires Loaded(dex) && i < |dex.protos| && HasList(dex, i)
    ensures ok <==> ShortyOk(dex, StringById(dex, dex.protos[i].shortyIdx), dex.protos[i].returnTypeIdx,
        Parameters(dex, i))
  {
    hide ShortyFits, StringById, StringByTypeIdx, IsStringData, At, ParameterIterator.Left, ParameterIterator.Valid;
    var p, list := dex.protos[i], Parameters(dex, i);
    var shorty := StringById(dex, p.shortyIdx);
    AtIs(shorty, 0);
    NoLetter(StringByTypeIdx(dex, p.returnTypeIdx), true);
    var match1 := ShortyDescMatch(At(shorty, 0), StringByTypeIdx(dex, p.returnTypeIdx), true);
    if !match1 {
      return false;
    }
    var it := new ParameterIterator(list);
    var at := 1;
    while true
      invariant it.Valid() && fresh(it) && 1 <= at <= 1 + |list| && it.Left() == list[at - 1..] && at <= |shorty|
      invariant forall k | 0 <= k < at - 1 :: LetterOk(dex, shorty, list, k)
      decreases |list| - at
    {
      var idx := it.NextIndex();
      if idx == None {
        break;
      }
      AtIs(shorty, at);
      if At(shorty, at) == 0 {
        assert !LetterOk(dex, shorty, list, at - 1);
        return false;
      }
      var match2 := ShortyDescMatch(At(shorty, at), StringByTypeIdx(dex, idx.value), false);
      if !match2 {
        assert !LetterOk(dex, shorty, list, at - 1);
        return false;
      }
      at := at + 1;
    }
    AtIs(shorty, at);
    return At(shorty, at) == 0;
  }

  lemma NoLetter(d: seq<u1>, isReturnType: bool)
    ensures !ShortyFits(0, d, isReturnType)
  {
  }

  lemma AtIs(s: seq<u1>, i: nat)
    requires i <= |s| && forall k | 0 <= k < |s| :: s[k] != 0
    ensures if i == |s| then At(s, i) == 0 else At(s, i) == s[i] != 0
  {
  }

  /** The part of crossVerifyProtoIdItem that compares two lists of parameters. */
  method VerifyParameterOrder(list0: seq<nat>, list1: seq<nat>) returns (ok: bool)
    ensures ok <==> Cmp(list0, list1) < 0
  {
    var it0 := new ParameterIterator(list0);
    var it1 := new ParameterIterator(list1);
    while true
      invariant it0.Valid() && it1.Valid() && fresh(it0) && fresh(it1) && it0 != it1
      invariant Cmp(list0, list1) == Cmp(it0.Left(), it1.Left())
      decreases |it1.Left()|
    {
      var idx0 := it0.NextIndex();
      var idx1 := it1.NextIndex();
      if idx1 == None {
        return false;
      }
      if idx0 == None {
        return true;
      }
      if idx0.value < idx1.value {
        return true;
      } else if idx0.value > idx1.value {
        return false;
      }
    }
  }

  /** crossVerifyProtoIdItem. The item before it, if any, has passed. */
  method CrossVerifyProtoId(dex: Dex, i: nat) returns (ok: bool)
    requires Loaded(dex) && i < |dex.protos|
    requires i > 0 ==> HasList(dex, i - 1)
    ensures ok <==> ProtoIdOk(dex, i)
  {
    hide Loaded, ShortyOk, StringById;
    var p := dex.protos[i];
    if p.parametersOff != 0 && p.parametersOff !in dex.typeLists {
      return false;
    }
    assert HasList(dex, i);
    var shortyOk := VerifyShorty(dex, i);
    if !shortyOk {
      return false;
    }
    if i > 0 {
      var p0 := dex.protos[i - 1];
      assert SortKey(dex, i - 1)[1..] == Parameters(dex, i - 1) && SortKey(dex, i)[1..] == Parameters(dex, i);
      if p0.returnTypeIdx > p.returnTypeIdx {
        return false;
      } else if p0.returnTypeIdx == p.returnTypeIdx {
        var inOrder := VerifyParameterOrder(Parameters(dex, i - 1), Parameters(dex, i));
        return inOrder;
      }
    }
    return true;
  }

  ghost predicate Accepted(dex: Dex) {
    Loaded(dex) && StringIdsOk(dex) && TypeIdsOk(dex) && ProtoIdsOk(dex)
  }

  method CrossVerifyStringIds(dex: Dex) returns (okay: bool)
    ensures okay <==> StringIdsOk(dex)
  {
    hide StringIdOk;
    for i := 0 to |dex.strings|
      invariant forall k | 0 <= k < i :: StringIdOk(dex, k)
    {
      okay := CrossVerifyStringId(dex, i);
      if !okay {
        return;
      }
    }
    okay := true;
  }

  method CrossVerifyTypeIds(dex: Dex) returns (okay: bool)
    requires Loaded(dex)
    ensures okay <==> TypeIdsOk(dex)
  {
    hide TypeIdOk;
    for i := 0 to |dex.types|
      invariant forall k | 0 <= k < i :: TypeIdOk(dex, k)
    {
      okay := CrossVerifyTypeId(dex, i);
      if !okay {
        return;
      }
    }
    okay := true;
  }

  method CrossVerifyProtoIds(dex: Dex) returns (okay: bool)
    requires Loaded(dex)
    ensures okay <==> ProtoIdsOk(dex)
  {
    hide ProtoIdOk;
    for i := 0 to |dex.protos|
      invariant forall k | 0 <= k < i :: ProtoIdOk(dex, k) && HasList(dex, k)
    {
      okay := CrossVerifyProtoId(dex, i);
      if !okay {
        return;
      }
      ListThere(dex, i);
    }
    okay := true;
  }

  /** A section of the map list; those of other types are not looked at here. */
  datatype IdSection = StringIds | TypeIds | ProtoIds | Other

  ghost predicate IdSectionOk(dex: Dex, section: IdSection)
    requires Loaded(dex)
  {
    match section
    case StringIds => StringIdsOk(dex)
    case TypeIds => TypeIdsOk(dex)
    case ProtoIds => ProtoIdsOk(dex)
    case Other => true
  }

  ghost predicate IdSectionsOk(dex: Dex, sections: seq<IdSection>)
    requires Loaded(dex)
  {
    forall k | 0 <= k < |sections| :: IdSectionOk(dex, sections[k])
  }

  /** crossVerifyEverything, as far as it is about these sections, in the order of the map list. */
  method CrossVerify(dex: Dex, sections: seq<IdSection>) returns (okay: bool)
    requires Loaded(dex)
    ensures okay <==> IdSectionsOk(dex, sections)
  {
    hide Loaded, StringIdsOk, TypeIdsOk, ProtoIdsOk;
    okay := true;
    var k := 0;
    while okay && k < |sections|
      invariant 0 <= k <= |sections| && (okay <==> forall j | 0 <= j < k :: IdSectionOk(dex, sections[j]))
    {
      match sections[k] {
        case StringIds => okay := CrossVerifyStringIds(dex);
        case TypeIds => okay := CrossVerifyTypeIds(dex);
        case ProtoIds => okay := CrossVerifyProtoIds(dex);
        case Other =>
      }
      k := k + 1;
    }
  }

  /** A table without a section has no entries: swapMap has seen to that. */
  predicate Covers(dex: Dex, sections: seq<IdSection>) {
    && (StringIds in sections || dex.strings == [])
    && (TypeIds in sections || dex.types == [])
    && (ProtoIds in sections || dex.protos == [])
  }

  /** So the order of the sections does not matter. */
  lemma AnyOrder(dex: Dex, sections: seq<IdSection>)
    requires Loaded(dex) && Covers(dex, sections)
    ensures IdSectionsOk(dex, sections) <==> Accepted(dex)
  {
    hide StringIdOk, TypeIdOk, ProtoIdOk;
    if IdSectionsOk(dex, sections) {
      assert StringIds in sections ==> IdSectionOk(dex, StringIds);
      assert TypeIds in sections ==> IdSectionOk(dex, TypeIds);
      assert ProtoIds in sections ==> IdSectionOk(dex, ProtoIds);
    }
  }

  lemma InDataMap(dex: Dex, i: nat)
    requires StringIdsOk(dex) && i < |dex.strings|
    ensures dex.strings[i] in dex.stringData
  {
    assert StringIdOk(dex, i);
  }

  lemma ListThere(dex: Dex, i: nat)
    requires Loaded(dex) && i < |dex.protos| && ProtoIdOk(dex, i)
    ensures HasList(dex, i)
  {
  }

  /* ---- what an accepted file keeps ---- */

  lemma {:induction false} StringsAscend(dex: Dex, i: nat, j: nat)
    requires StringIdsOk(dex) && i < j < |dex.strings|
    ensures Cmp(Units(dex, i), Units(dex, j)) < 0
    decreases j
  {
    hide Units;
    assert StringIdOk(dex, j);
    if i < j - 1 {
      StringsAscend(dex, i, j - 1);
      CmpTransitive(Units(dex, i), Units(dex, j - 1), Units(dex, j));
    }
  }

  lemma {:induction false} TypesAscend(dex: Dex, i: nat, j: nat)
    requires TypeIdsOk(dex) && i < j < |dex.types|
    ensures dex.types[i] < dex.types[j]
    decreases j
  {
    assert TypeIdOk(dex, j);
    if i < j - 1 {
      TypesAscend(dex, i, j - 1);
    }
  }

  lemma NoZeroUnit(us: seq<u2>, i: nat)
    requires TypeDescriptor(us) && i < |us|
    ensures us[i] != 0
  {
    var n := Brackets(us, 0);
    if us[n] == CLASS && n < i < |us| - 1 {
      assert Part(us, n + 1, i, SLASH);
    }
  }

  /** strcmp orders type descriptors as their indices are ordered, though the table was sorted by dexUtf8Cmp. */
  lemma TypeOrder(dex: Dex, a: nat, b: nat)
    requires Accepted(dex) && a < |dex.types| && b < |dex.types|
    ensures Cmp(StringByTypeIdx(dex, a), StringByTypeIdx(dex, b)) == Sign(a - b)
  {
    hide StringById, Units, ProtoIdsOk;
    if a == b {
      CmpEqual(StringByTypeIdx(dex, a), StringByTypeIdx(dex, b));
    } else if a < b {
      LaterType(dex, a, b);
    } else {
      LaterType(dex, b, a);
      CmpSwapped(StringByTypeIdx(dex, b), StringByTypeIdx(dex, a));
    }
  }

  lemma LaterType(dex: Dex, a: nat, b: nat)
    requires Loaded(dex) && StringIdsOk(dex) && TypeIdsOk(dex) && a < b < |dex.types|
    ensures Cmp(StringByTypeIdx(dex, a), StringByTypeIdx(dex, b)) == -1
  {
    hide StringById, Units, Cmp, TypeDescriptor, Marks;
    var i, j := dex.types[a], dex.types[b];
    TypesAscend(dex, a, b);
    StringsAscend(dex, i, j);
    InDataMap(dex, i);
    InDataMap(dex, j);
    VerifiedString(dex, i);
    VerifiedString(dex, j);
    VerifiedUnits(dex, i);
    VerifiedUnits(dex, j);
    assert TypeIdOk(dex, a) && TypeIdOk(dex, b);
    DescriptorsDoNotClash(Units(dex, i), Units(dex, j));
    OrderAgrees(Units(dex, i), Units(dex, j));
  }

  lemma DescriptorsDoNotClash(us: seq<u2>, vs: seq<u2>)
    requires TypeDescriptor(us) && TypeDescriptor(vs)
    ensures !ZeroMeetsAscii(us, vs)
  {
    hide TypeDescriptor;
    forall i | 0 <= i < |us| ensures us[i] != 0 { NoZeroUnit(us, i); }
    forall i | 0 <= i < |vs| ensures vs[i] != 0 { NoZeroUnit(vs, i); }
  }

  lemma NextProto(dex: Dex, j: nat)
    requires Accepted(dex) && 0 < j < |dex.protos|
    ensures HasList(dex, j - 1) && HasList(dex, j) && Cmp(SortKey(dex, j - 1), SortKey(dex, j)) < 0
  {
    hide HasList, SortKey, Cmp, ShortyOk, StringIdsOk, TypeIdsOk;
    assert ProtoIdOk(dex, j);
  }

  lemma {:induction false} ProtosAscend(dex: Dex, i: nat, j: nat)
    requires Accepted(dex) && i < j < |dex.protos|
    ensures HasList(dex, i) && HasList(dex, j) && Cmp(SortKey(dex, i), SortKey(dex, j)) < 0
    decreases j
  {
    hide Accepted, HasList, SortKey, Cmp;
    NextProto(dex, j);
    if i < j - 1 {
      ProtosAscend(dex, i, j - 1);
      CmpTransitive(SortKey(dex, i), SortKey(dex, j - 1), SortKey(dex, j));
    }
  }
}
