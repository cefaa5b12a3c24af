/** Method prototypes: libdex/DexProto.cpp. */
module DexProto {
  import opened Leb128
  import opened Options
  import opened Lexical
  import opened Descriptors
  import opened Shapes
  import opened DexIds

  /** A prototype by its descriptors. */
  datatype Signature = Signature(returnType: seq<u1>, parameters: seq<seq<u1>>)

  function Descs(dex: Dex, list: seq<nat>): (r: seq<seq<u1>>)
    requires Loaded(dex) && ListOk(dex, list)
    ensures |r| == |list|
  {
    if list == [] then [] else [StringByTypeIdx(dex, list[0])] + Descs(dex, list[1..])
  }

  function SignatureOf(dex: Dex, i: nat): Signature
    requires Loaded(dex) && i < |dex.protos| && HasList(dex, i)
  {
    Signature(StringByTypeIdx(dex, dex.protos[i].returnTypeIdx), Descs(dex, Parameters(dex, i)))
  }

  function Concat(ds: seq<seq<u1>>): seq<u1> {
    if ds == [] then [] else ds[0] + Concat(ds[1..])
  }

  /** As a method descriptor spells it. */
  function Text(p: Signature): seq<u1> {
    [OPEN_PAREN] + Concat(p.parameters) + [CLOSE_PAREN] + p.returnType
  }

  /** A type that a parameter can have. */
  ghost predicate IsArgument(d: seq<u1>) {
    IsType(d) && d[0] != VOID
  }

  ghost predicate IsType(d: seq<u1>)
    ensures IsType(d) ==> d != []
  {
    exists n: nat :: Shaped(d, n)
  }

  ghost predicate AreArguments(ds: seq<seq<u1>>) {
    forall k | 0 <= k < |ds| :: IsArgument(ds[k])
  }

  ghost predicate WellFormed(p: Signature) {
    IsType(p.returnType) && AreArguments(p.parameters)
  }

  /* ---- the order of prototypes ---- */

  function CmpTypes(a: seq<seq<u1>>, b: seq<seq<u1>>): (r: int)
    ensures -1 <= r <= 1
  {
    if a == [] && b == [] then 0
    else if a == [] then -1
    else if b == [] then 1
    else if Cmp(a[0], b[0]) != 0 then Cmp(a[0], b[0])
    else CmpTypes(a[1..], b[1..])
  }

  function CmpSignatures(p: Signature, q: Signature, compareReturnType: bool): (r: int)
    ensures -1 <= r <= 1
  {
    if compareReturnType && Cmp(p.returnType, q.returnType) != 0 then Cmp(p.returnType, q.returnType)
    else CmpTypes(p.parameters, q.parameters)
  }

  lemma {:induction false} CmpTypesEqual(a: seq<seq<u1>>, b: seq<seq<u1>>)
    ensures CmpTypes(a, b) == 0 <==> a == b
  {
    if a != [] && b != [] {
      CmpEqual(a[0], b[0]);
      CmpTypesEqual(a[1..], b[1..]);
      assert a == [a[0]] + a[1..] && b == [b[0]] + b[1..];
    }
  }

  /** protoCompare. */
  method ProtoCompare(dex1: Dex, i1: nat, dex2: Dex, i2: nat, compareReturnType: bool) returns (r: int)
    requires Loaded(dex1) && i1 < |dex1.protos| && HasList(dex1, i1)
    requires Loaded(dex2) && i2 < |dex2.protos| && HasList(dex2, i2)
    ensures Sign(r) == CmpSignatures(SignatureOf(dex1, i1), SignatureOf(dex2, i2), compareReturnType)
  {
    hide Loaded, StringByTypeIdx;
    var list1, list2 := Parameters(dex1, i1), Parameters(dex2, i2);
    ListsOk(dex1, i1);
    ListsOk(dex2, i2);
    ghost var p, q := SignatureOf(dex1, i1), SignatureOf(dex2, i2);
    if dex1 == dex2 && i1 == i2 {
      CmpEqual(p.returnType, q.returnType);
      CmpTypesEqual(p.parameters, q.parameters);
      return 0;
    }
    if compareReturnType {
      r := Cmp(StringByTypeIdx(dex1, dex1.protos[i1].returnTypeIdx),
          StringByTypeIdx(dex2, dex2.protos[i2].returnTypeIdx));
      if r != 0 {
        return;
      }
    }
    var minParam := if |list1| > |list2| then |list2| else |list1|;
    for i := 0 to minParam
      invariant CmpTypes(p.parameters, q.parameters) == CmpTypes(Descs(dex1, list1)[i..], Descs(dex2, list2)[i..])
    {
      var idx1, idx2 := list1[i], list2[i];
      DescAt(dex1, list1, i);
      DescAt(dex2, list2, i);
      r := Cmp(StringByTypeIdx(dex1, idx1), StringByTypeIdx(dex2, idx2));
      if r != 0 {
        return;
      }
    }
    return if |list1| < |list2| then -1 else if |list1| > |list2| then 1 else 0;
  }

  lemma ListsOk(dex: Dex, i: nat)
    requires Loaded(dex) && i < |dex.protos| && HasList(dex, i)
    ensures ListOk(dex, Parameters(dex, i)) && IndicesOk(dex, dex.protos[i])
    ensures forall k | 0 <= k < |dex.types| :: dex.types[k] < |dex.strings|
  {
  }

  lemma {:induction false} DescAt(dex: Dex, list: seq<nat>, i: nat)
    requires Loaded(dex) && ListOk(dex, list) && i < |list|
    ensures Descs(dex, list)[i] == StringByTypeIdx(dex, list[i])
    ensures Descs(dex, list)[i..] == [StringByTypeIdx(dex, list[i])] + Descs(dex, list)[i + 1..]
    decreases i
  {
    hide Loaded, StringByTypeIdx;
    if i > 0 {
      DescAt(dex, list[1..], i - 1);
    }
  }

  lemma {:induction false} ListOrder(dex: Dex, a: seq<nat>, b: seq<nat>)
    requires Accepted(dex) && ListOk(dex, a) && ListOk(dex, b)
    ensures CmpTypes(Descs(dex, a), Descs(dex, b)) == Cmp(a, b)
  {
    hide Accepted, StringByTypeIdx;
    AcceptedIsLoaded(dex);
    if a != [] && b != [] {
      DescsFirst(dex, a);
      DescsFirst(dex, b);
      hide Loaded, Descs;
      TypeOrder(dex, a[0], b[0]);
      ListOrder(dex, a[1..], b[1..]);
    }
  }

  lemma DescsFirst(dex: Dex, a: seq<nat>)
    requires Loaded(dex) && ListOk(dex, a) && a != []
    ensures a[0] < |dex.types| && dex.types[a[0]] < |dex.strings| && ListOk(dex, a[1..])
    ensures Descs(dex, a) != [] && Descs(dex, a)[0] == StringByTypeIdx(dex, a[0]) &&
        Descs(dex, a)[1..] == Descs(dex, a[1..])
  {
  }

  lemma ProtoHasList(dex: Dex, i: nat)
    requires Accepted(dex) && i < |dex.protos|
    ensures HasList(dex, i)
  {
    assert ProtoIdOk(dex, i);
  }

  lemma KeyOrder(dex: Dex, i: nat, j: nat)
    requires Accepted(dex) && i < |dex.protos| && j < |dex.protos| && HasList(dex, i) && HasList(dex, j)
    ensures CmpSignatures(SignatureOf(dex, i), SignatureOf(dex, j), true) == Cmp(SortKey(dex, i), SortKey(dex, j))
  {
    hide StringByTypeIdx, StringIdsOk, TypeIdsOk, ProtoIdsOk;
    var p, q := Parameters(dex, i), Parameters(dex, j);
    TypeOrder(dex, dex.protos[i].returnTypeIdx, dex.protos[j].returnTypeIdx);
    ListOrder(dex, p, q);
    assert SortKey(dex, i)[1..] == p && SortKey(dex, j)[1..] == q;
  }

  /** In an accepted file, prototypes compare by strcmp on their descriptors as their indices do. */
  lemma ProtoOrder(dex: Dex, i: nat, j: nat)
    requires Accepted(dex) && i < |dex.protos| && j < |dex.protos|
    ensures HasList(dex, i) && HasList(dex, j)
    ensures CmpSignatures(SignatureOf(dex, i), SignatureOf(dex, j), true) == Sign(i - j)
  {
    hide Accepted, SignatureOf, SortKey;
    ProtoHasList(dex, i);
    ProtoHasList(dex, j);
    AcceptedIsLoaded(dex);
    KeyOrder(dex, i, j);
    if i < j {
      ProtosAscend(dex, i, j);
    } else if j < i {
      ProtosAscend(dex, j, i);
      CmpSwapped(SortKey(dex, i), SortKey(dex, j));
    } else {
      CmpEqual(SortKey(dex, i), SortKey(dex, j));
    }
  }

  lemma AcceptedIsLoaded(dex: Dex)
    requires Accepted(dex)
    ensures Loaded(dex)
  {
  }

  /* ---- printing ---- */

  /** DexStringCache: a small buffer, and room on the heap for what does not fit. */
  class StringCache {
    var value: array<u1>
    var allocatedSize: nat
    const buffer: array<u1>

    ghost predicate Valid()
      reads this
    {
      && buffer.Length == 120
      && if allocatedSize == 0 then value == buffer else value != buffer && value.Length == allocatedSize > 120
    }

    /** dexStringCacheInit. */
    constructor ()
      ensures Valid() && fresh(value) && value.Length > 0 && value[0] == 0
    {
      var room := new u1[120](_ => 0);
      buffer := room;
      value := room;
      allocatedSize := 0;
    }

    /** dexStringCacheAlloc. */
    method Alloc(length: nat)
      requires Valid()
      modifies `value, `allocatedSize
      ensures Valid() && value.Length >= length
      ensures value == old(value) || value == buffer || fresh(value)
    {
      if allocatedSize != 0 {
        if allocatedSize >= length {
          return;
        }
      }
      if length <= buffer.Length {
        value, allocatedSize := buffer, 0;
      } else {
        value, allocatedSize := new u1[length](_ => 0), length;
      }
    }
  }

  /** strcpy: the bytes and the terminator, and nothing else. */
  method StrCpy(a: array<u1>, at: nat, s: seq<u1>)
    requires at + |s| < a.Length
    modifies a
    ensures a[..at] == old(a[..at]) && a[at..at + |s|] == s && a[at + |s|] == 0
    ensures a[at + |s| + 1..] == old(a[at + |s| + 1..])
  {
    for i := 0 to |s|
      invariant forall k | 0 <= k < a.Length :: a[k] == if at <= k < at + i then s[k - at] else old(a[k])
    {
      a[at + i] := s[i];
    }
    a[at + |s|] := 0;
  }

  /** The first loop of dexProtoGetMethodDescriptor: how much room it asks for. */
  method DescriptorLength(dex: Dex, i: nat) returns (length: nat)
    requires Loaded(dex) && i < |dex.protos| && HasList(dex, i)
    ensures length == |Text(SignatureOf(dex, i))| + 1
  {
    ListsOk(dex, i);
    hide Loaded, StringByTypeIdx, ListOk;
    var list := Parameters(dex, i);
    length := 3;
    for k := 0 to |list|
      invariant length == 3 + |Concat(Descs(dex, list)[..k])|
    {
      var d := OneDesc(dex, list, k);
      length := length + |d|;
      ConcatNext(Descs(dex, list), k);
    }
    assert Descs(dex, list)[..|list|] == Descs(dex, list);
    length := length + |StringByTypeIdx(dex, dex.protos[i].returnTypeIdx)|;
  }

  function OneDesc(dex: Dex, list: seq<nat>, k: nat): (d: seq<u1>)
    requires Loaded(dex) && ListOk(dex, list) && k < |list|
    ensures d == Descs(dex, list)[k]
  {
    DescAt(dex, list, k);
    StringByTypeIdx(dex, list[k])
  }

  lemma {:induction false} ConcatNext(ds: seq<seq<u1>>, k: nat)
    requires k < |ds|
    ensures Concat(ds[..k + 1]) == Concat(ds[..k]) + ds[k]
    decreases k
  {
    if k > 0 {
      assert ds[..k + 1][1..] == ds[1..][..k] && ds[..k][1..] == ds[1..][..k - 1];
      ConcatNext(ds[1..], k - 1);
    } else {
      assert ds[..1][1..] == [];
    }
  }

  lemma {:induction false} ConcatPrefix(ds: seq<seq<u1>>, k: nat)
    requires k <= |ds|
    ensures |Concat(ds[..k])| <= |Concat(ds)|
    decreases |ds| - k
  {
    if k < |ds| {
      ConcatPrefix(ds, k + 1);
      ConcatNext(ds, k);
    } else {
      assert ds[..k] == ds;
    }
  }

  /** What is in the cache from its beginning. */
  predicate Holds(a: array<u1>, s: seq<u1>)
    reads a
  {
    |s| <= a.Length && a[..|s|] == s
  }

  method Append(a: array<u1>, ghost had: seq<u1>, at: nat, s: seq<u1>)
    requires Holds(a, had) && at == |had| && at + |s| < a.Length
    modifies a
    ensures Holds(a, had + s + [0]) && Holds(a, had + s)
  {
    StrCpy(a, at, s);
    assert a[..at + |s| + 1] == had + s + [0];
  }

  method AppendByte(a: array<u1>, ghost had: seq<u1>, at: nat, b: u1)
    requires Holds(a, had) && at == |had| < a.Length
    modifies a
    ensures Holds(a, had + [b])
  {
    a[at] := b;
    assert a[..at + 1] == had + [b];
  }

  /** The second loop of dexProtoGetMethodDescriptor. */
  method WriteParameters(dex: Dex, list: seq<nat>, a: array<u1>, ghost had: seq<u1>, start: nat) returns (at: nat)
    requires Loaded(dex) && ListOk(dex, list) && Holds(a, had) && start == |had|
    requires |had| + |Concat(Descs(dex, list))| < a.Length
    modifies a
    ensures at == |had| + |Concat(Descs(dex, list))| && Holds(a, had + Concat(Descs(dex, list)))
  {
    hide Loaded, StringByTypeIdx, ListOk, Holds, Concat, Descs;
    ghost var ds, done := Descs(dex, list), had;
    at := start;
    ConcatNone(ds);
    for k := 0 to |list|
      invariant at == |done| && Holds(a, done) && done == had + Concat(ds[..k])
    {
      var d := OneDesc(dex, list, k);
      ConcatNext(ds, k);
      ConcatPrefix(ds, k + 1);
      Append(a, done, at, d);
      at, done := at + |d|, done + d;
    }
    assert ds[..|list|] == ds;
  }

  /** The rest of dexProtoGetMethodDescriptor, once there is room. */
  method WriteDescriptor(dex: Dex, i: nat, a: array<u1>)
    requires Loaded(dex) && i < |dex.protos| && HasList(dex, i) && |Text(SignatureOf(dex, i))| < a.Length
    modifies a
    ensures Holds(a, Text(SignatureOf(dex, i)) + [0])
  {
    ListsOk(dex, i);
    hide Loaded, StringByTypeIdx, ListOk, Holds, Concat, Descs, HasList, IndicesOk, Parameters;
    HoldsNothing(a);
    AppendByte(a, [], 0, OPEN_PAREN);
    var at := WriteParameters(dex, Parameters(dex, i), a, [OPEN_PAREN], 1);
    ghost var done := [OPEN_PAREN] + Concat(Descs(dex, Parameters(dex, i)));
    AppendByte(a, done, at, CLOSE_PAREN);
    Append(a, done + [CLOSE_PAREN], at + 1, StringByTypeIdx(dex, dex.protos[i].returnTypeIdx));
  }

  /** dexProtoGetMethodDescriptor. */
  method GetMethodDescriptor(dex: Dex, i: nat, cache: StringCache)
    requires Loaded(dex) && i < |dex.protos| && HasList(dex, i) && cache.Valid()
    modifies cache, cache.value, cache.buffer
    ensures cache.Valid() && Holds(cache.value, Text(SignatureOf(dex, i)) + [0])
    ensures cache.value == old(cache.value) || cache.value == cache.buffer || fresh(cache.value)
  {
    hide Loaded, Holds, Text, SignatureOf, HasList;
    var length := DescriptorLength(dex, i);
    cache.Alloc(length);
    WriteDescriptor(dex, i, cache.value);
  }

  lemma HoldsNothing(a: array<u1>)
    ensures Holds(a, [])
  {
  }

  lemma ConcatNone(ds: seq<seq<u1>>)
    ensures Concat(ds[..0]) == []
  {
  }

  /* ---- comparing with a descriptor's text ---- */

  predicate NoZero(s: seq<u1>) {
    forall k | 0 <= k < |s| :: s[k] != 0
  }

  predicate IsAt(s: seq<u1>, at: nat, d: seq<u1>) {
    at + |d| <= |s| && s[at..at + |d|] == d
  }

  /** strchr. */
  method StrChr(s: seq<u1>, from: nat, c: u1) returns (r: Option<nat>)
    requires NoZero(s) && from <= |s| && c != 0
    ensures r.Some? ==> from <= r.value < |s| && s[r.value] == c && forall k | from <= k < r.value :: s[k] != c
    ensures r.None? ==> forall k | from <= k < |s| :: s[k] != c
  {
    var i := from;
    while At(s, i) != 0
      invariant from <= i <= |s| && forall k | from <= k < i :: s[k] != c
      decreases |s| - i
    {
      if s[i] == c {
        return Some(i);
      }
      i := i + 1;
    }
    return None;
  }

  /** From `at` to e is a type that a parameter can have, behind n brackets. */
  predicate EndsType(s: seq<u1>, at: nat, n: nat, e: nat) {
    && at + n < e <= |s| && (forall k | at <= k < at + n :: s[k] == OPEN)
    && if IsPrimitive(s[at + n]) then e == at + n + 1
       else
         && s[at + n] == CLASS && at + n + 1 < e && s[e - 1] == SEMICOLON
         && forall k | at + n < k < e - 1 :: s[k] != SEMICOLON
  }

  lemma TypeEndsOnce(s: seq<u1>, at: nat, n: nat, e: nat, m: nat, f: nat)
    requires EndsType(s, at, n, e) && EndsType(s, at, m, f)
    ensures n == m && e == f
  {
  }

  lemma ArgumentEnds(s: seq<u1>, at: nat, d: seq<u1>, n: nat)
    requires IsAt(s, at, d) && Shaped(d, n) && d[0] != VOID
    ensures EndsType(s, at, n, at + |d|)
  {
    hide Unreserved;
    assert forall k | 0 <= k < |d| :: s[at + k] == d[k];
    if d[n] == CLASS {
      OneSemicolon(d, n);
      forall k | at + n < k < at + |d| - 1 ensures s[k] != SEMICOLON {
        assert s[k] == d[k - at];
      }
    }
  }

  /** methodDescriptorNextType: behind the type, or null exactly if there is none that a parameter can have. */
  method MethodDescriptorNextType(s: seq<u1>, at: nat) returns (next: Option<nat>, ghost n: nat)
    requires NoZero(s) && at <= |s|
    ensures if next.Some? then EndsType(s, at, n, next.value) else forall m, e :: !EndsType(s, at, m, e)
  {
    hide NoZero;
    var i := at;
    while At(s, i) == OPEN
      invariant at <= i <= |s| && forall k | at <= k < i :: s[k] == OPEN
      decreases |s| - i
    {
      i := i + 1;
    }
    n := i - at;
    if IsPrimitive(At(s, i)) {
      return Some(i + 1), n;
    } else if At(s, i) == CLASS {
      var end := StrChr(s, i + 1, SEMICOLON);
      if end.Some? {
        return Some(end.value + 1), n;
      }
    }
    return None, n;
  }

  /** A byte as a `char`, which C lets be signed or not. */
  function Char(b: u1, signedChars: bool): int {
    if signedChars && b >= 0x80 then b - 0x100 else b
  }

  /** The order of two C strings by their chars, terminators included. */
  function CmpChars(a: seq<u1>, b: seq<u1>, signedChars: bool): (r: int)
    ensures -1 <= r <= 1
  {
    var c1, c2 := if a == [] then 0 else Char(a[0], signedChars), if b == [] then 0 else Char(b[0], signedChars);
    if c1 != c2 then Sign(c1 - c2)
    else if a == [] || b == [] then 0
    else CmpChars(a[1..], b[1..], signedChars)
  }

  /** The inner loop of protoCompareToParameterDescriptors. */
  method CompareType(p: seq<u1>, s: seq<u1>, at: nat, next: nat, signedChars: bool) returns (r: int)
    requires NoZero(p) && NoZero(s) && at <= next <= |s|
    ensures Sign(r) == CmpChars(p, s[at..next], signedChars)
  {
    var i := 0;
    while true
      invariant i <= |p| && at + i <= next
      invariant CmpChars(p, s[at..next], signedChars) == CmpChars(p[i..], s[at + i..next], signedChars)
      decreases |p| - i
    {
      var c1 := Char(At(p, i), signedChars);
      var c2 := if at + i < next then Char(s[at + i], signedChars) else 0;
      assert i < |p| ==> p[i..][1..] == p[i + 1..];
      assert at + i < next ==> s[at + i..next][1..] == s[at + i + 1..next];
      if c1 < c2 {
        return -1;
      } else if c1 > c2 {
        return 1;
      } else if c1 == 0 {
        return 0;
      }
      i := i + 1;
    }
  }

  /** dexParameterIteratorNextDescriptor. */
  method NextDescriptor(dex: Dex, it: ParameterIterator) returns (d: Option<seq<u1>>)
    requires Loaded(dex) && it.Valid() && ListOk(dex, it.Left())
    modifies it
    ensures it.Valid() && ListOk(dex, it.Left())
    ensures var before := old(Descs(dex, it.Left()));
      if before == [] then d == None && it.Left() == []
      else d == Some(before[0]) && NoZero(before[0]) && Descs(dex, it.Left()) == before[1..]
  {
    ghost var left := it.Left();
    if left != [] {
      DescsFirst(dex, left);
    }
    hide Loaded, StringByTypeIdx;
    var idx := it.NextIndex();
    if idx == None {
      return None;
    }
    return Some(StringByTypeIdx(dex, idx.value));
  }

  /** What is at a place in the text: the types that are left, and what closes them. */
  ghost predicate Ahead(s: seq<u1>, at: nat, ds: seq<seq<u1>>, tail: seq<u1>) {
    at <= |s| && s[at..] == Concat(ds) + tail
  }

  /** What ends the list of types. */
  predicate Closes(tail: seq<u1>, end: int) {
    if end == 0 then tail == [] else tail != [] && tail[0] == end
  }

  lemma AheadNone(s: seq<u1>, at: nat, tail: seq<u1>, end: int)
    requires Ahead(s, at, [], tail) && Closes(tail, end)
    ensures At(s, at) == end
  {
    assert s[at..] == tail;
  }

  lemma AheadSome(s: seq<u1>, at: nat, ds: seq<seq<u1>>, tail: seq<u1>)
    requires Ahead(s, at, ds, tail) && ds != [] && IsType(ds[0])
    ensures At(s, at) == ds[0][0] && !Reserved(ds[0][0])
    ensures IsAt(s, at, ds[0]) && Ahead(s, at + |ds[0]|, ds[1..], tail)
  {
    var d, rest := ds[0], Concat(ds[1..]) + tail;
    TypeStart(d);
    assert s[at..] == d + rest;
    assert s[at..][0] == d[0];
    assert s[at..][..|d|] == d && s[at..][|d|..] == rest;
  }

  lemma TypeStart(d: seq<u1>)
    requires IsType(d)
    ensures !Reserved(d[0])
  {
    var n: nat :| Shaped(d, n);
  }

  ghost function BracketCount(d: seq<u1>): (n: nat)
    requires IsType(d)
    ensures Shaped(d, n)
  {
    var n: nat :| Shaped(d, n); n
  }

  lemma AheadIs(s: seq<u1>, at: nat, ds: seq<seq<u1>>, tail: seq<u1>, end: int)
    requires AreArguments(ds) && Ahead(s, at, ds, tail) && Closes(tail, end) && (end == 0 || end == CLOSE_PAREN)
    ensures At(s, at) == end <==> ds == []
    ensures ds != [] ==>
        IsArgument(ds[0]) && IsAt(s, at, ds[0]) && Ahead(s, at + |ds[0]|, ds[1..], tail) &&
        AreArguments(ds[1..])
  {
    hide Ahead, Closes, At, IsAt, IsType;
    if ds == [] {
      AheadNone(s, at, tail, end);
    } else {
      assert IsArgument(ds[0]);
      AheadSome(s, at, ds, tail);
    }
  }

  /** One parameter against the type that the text goes on with. */
  method CompareNext(p: seq<u1>, s: seq<u1>, at: nat, signedChars: bool, ghost d: seq<u1>) returns (r: int, next: nat)
    requires NoZero(p) && NoZero(s) && IsAt(s, at, d) && IsArgument(d)
    ensures next == at + |d| && Sign(r) == CmpChars(p, d, signedChars)
  {
    hide NoZero, CmpChars, Shaped;
    ghost var n := BracketCount(d);
    ArgumentEnds(s, at, d, n);
    hide EndsType;
    var nextDesc, m := MethodDescriptorNextType(s, at);
    assert nextDesc.Some?;
    next := nextDesc.value;
    TypeEndsOnce(s, at, n, at + |d|, m, next);
    r := CompareType(p, s, at, next, signedChars);
  }

  /** The order of two lists of types by the chars of their descriptors. */
  function CmpTypeChars(a: seq<seq<u1>>, b: seq<seq<u1>>, signedChars: bool): (r: int)
    ensures -1 <= r <= 1
  {
    if a == [] && b == [] then 0
    else if a == [] then -1
    else if b == [] then 1
    else if CmpChars(a[0], b[0], signedChars) != 0 then CmpChars(a[0], b[0], signedChars)
    else CmpTypeChars(a[1..], b[1..], signedChars)
  }

  /** protoCompareToParameterDescriptors: a prototype's parameters against those in the text from `start` on. */
  method CompareToParameters(dex: Dex, list: seq<nat>, s: seq<u1>, start: nat, end: u1, signedChars: bool,
                             ghost ds: seq<seq<u1>>, ghost tail: seq<u1>)
    returns (r: int)
    requires Loaded(dex) && ListOk(dex, list) && NoZero(s)
    requires AreArguments(ds) && Ahead(s, start, ds, tail) && Closes(tail, end) && (end == 0 || end == CLOSE_PAREN)
    ensures Sign(r) == CmpTypeChars(Descs(dex, list), ds, signedChars)
  {
    hide Loaded, NoZero, Ahead, Closes, ListOk, Descs, At, IsAt, IsArgument, AreArguments, CmpChars;
    var it := new ParameterIterator(list);
    var at := start;
    ghost var left, rest := Descs(dex, list), ds;
    while true
      invariant it.Valid() && fresh(it) && ListOk(dex, it.Left()) && left == Descs(dex, it.Left())
      invariant AreArguments(rest) && Ahead(s, at, rest, tail)
      invariant CmpTypeChars(Descs(dex, list), ds, signedChars) == CmpTypeChars(left, rest, signedChars)
      decreases |rest|
    {
      var protoDesc := NextDescriptor(dex, it);
      AheadIs(s, at, rest, tail, end);
      if At(s, at) == end {
        return if protoDesc == None then 0 else 1;
      }
      if protoDesc == None {
        return -1;
      }
      r, at := CompareNext(protoDesc.value, s, at, signedChars, rest[0]);
      if r != 0 {
        return;
      }
      left, rest := left[1..], rest[1..];
    }
  }

  /** No parameter hides the parenthesis that ends the parameters. */
  lemma {:induction false} ConcatUnparenthesized(ds: seq<seq<u1>>)
    requires AreArguments(ds)
    ensures forall k | 0 <= k < |Concat(ds)| :: Concat(ds)[k] != CLOSE_PAREN
  {
    if ds != [] {
      assert IsArgument(ds[0]);
      TypeUnparenthesized(ds[0], BracketCount(ds[0]));
      ConcatUnparenthesized(ds[1..]);
    }
  }

  lemma TypeUnparenthesized(d: seq<u1>, n: nat)
    requires Shaped(d, n)
    ensures forall k | 0 <= k < |d| :: d[k] != CLOSE_PAREN
  {
    forall k | 0 <= k < |d| ensures d[k] != CLOSE_PAREN {
      if d[n] == CLASS && n < k < |d| - 1 {
        assert d[k] == d[n + 1..|d| - 1][k - n - 1];
      }
    }
  }

  /** What dexProtoCompareToDescriptor orders by: strcmp for the return types, chars for the parameters. */
  function CmpToText(p: Signature, q: Signature, signedChars: bool): (r: int)
    ensures -1 <= r <= 1
  {
    if Cmp(p.returnType, q.returnType) != 0 then Cmp(p.returnType, q.returnType)
    else CmpTypeChars(p.parameters, q.parameters, signedChars)
  }

  /** dexProtoCompareToDescriptor, on the text of any prototype. */
  method CompareToDescriptor(dex: Dex, i: nat, s: seq<u1>, signedChars: bool, ghost q: Signature) returns (r: int)
    requires Loaded(dex) && i < |dex.protos| && HasList(dex, i)
    requires WellFormed(q) && s == Text(q) && NoZero(s)
    ensures Sign(r) == CmpToText(SignatureOf(dex, i), q, signedChars)
  {
    ListsOk(dex, i);
    hide Loaded, NoZero, IsType, AreArguments, CmpTypeChars, Cmp, Concat, StringByTypeIdx;
    ghost var body, tail := Concat(q.parameters), [CLOSE_PAREN] + q.returnType;
    TextParts(q);
    var paren := StrChr(s, 0, CLOSE_PAREN);
    if paren.None? {
      assert false;
      return 0;
    }
    var returnType := s[paren.value + 1..];
    r := Cmp(StringByTypeIdx(dex, dex.protos[i].returnTypeIdx), returnType);
    if r != 0 {
      return;
    }
    r := CompareToParameters(dex, Parameters(dex, i), s, 1, CLOSE_PAREN, signedChars, q.parameters, tail);
  }

  lemma TextParts(q: Signature)
    requires WellFormed(q)
    ensures var s, p, tail := Text(q), 1 + |Concat(q.parameters)|, [CLOSE_PAREN] + q.returnType;
      && p < |s| && s[p] == CLOSE_PAREN && (forall k | 0 <= k < p :: s[k] != CLOSE_PAREN) && s[p + 1..] == q.returnType
      && Ahead(s, 1, q.parameters, tail) && Closes(tail, CLOSE_PAREN)
  {
    ConcatUnparenthesized(q.parameters);
    hide AreArguments, IsType, Concat;
    assert Text(q)[1..] == Concat(q.parameters) + ([CLOSE_PAREN] + q.returnType);
  }

  /* ---- text and order ---- */

  /** A prototype that the verifier let pass has a text that can be taken apart again. */
  lemma AcceptedIsWellFormed(dex: Dex, i: nat)
    requires Accepted(dex) && i < |dex.protos|
    ensures HasList(dex, i) && WellFormed(SignatureOf(dex, i))
  {
    hide StringByTypeIdx, StringById, StringIdOk, TypeIdOk, Shaped, Cmp, Reserved, Unreserved;
    assert ProtoIdOk(dex, i);
    var p, list := dex.protos[i], Parameters(dex, i);
    TypeIsType(dex, p.returnTypeIdx);
    forall k | 0 <= k < |list| ensures IsArgument(Descs(dex, list)[k]) {
      assert LetterOk(dex, StringById(dex, p.shortyIdx), list, k);
      TypeIsType(dex, list[k]);
      DescAt(dex, list, k);
    }
  }

  lemma TypeIsType(dex: Dex, t: nat)
    requires Loaded(dex) && StringIdsOk(dex) && TypeIdsOk(dex) && t < |dex.types|
    ensures IsType(StringByTypeIdx(dex, t))
  {
    TypeShape(dex, t);
  }

  lemma TypeNoZero(d: seq<u1>)
    requires IsType(d)
    ensures NoZero(d)
  {
    var n := BracketCount(d);
    forall k | 0 <= k < |d| ensures d[k] != 0 {
      if d[n] == CLASS && n < k < |d| - 1 {
        assert d[k] == d[n + 1..|d| - 1][k - n - 1];
      }
    }
  }

  lemma {:induction false} ConcatNoZero(ds: seq<seq<u1>>)
    requires AreArguments(ds)
    ensures NoZero(Concat(ds))
  {
    if ds != [] {
      assert IsArgument(ds[0]);
      TypeNoZero(ds[0]);
      ConcatNoZero(ds[1..]);
    }
  }

  lemma TextNoZero(p: Signature)
    requires WellFormed(p)
    ensures NoZero(Text(p))
  {
    hide AreArguments, IsType, Concat;
    ConcatNoZero(p.parameters);
    TypeNoZero(p.returnType);
  }

  /** Lists of types are told apart by their concatenations, closed by a parenthesis. */
  lemma {:induction false} ConcatDetermines(a: seq<seq<u1>>, b: seq<seq<u1>>, x: seq<u1>, y: seq<u1>)
    requires AreArguments(a) && AreArguments(b) && Closes(x, CLOSE_PAREN) && Closes(y, CLOSE_PAREN)
    requires Concat(a) + x == Concat(b) + y
    ensures a == b && x == y
  {
    var s := Concat(a) + x;
    assert Ahead(s, 0, a, x) by { assert s[0..] == s; }
    assert Ahead(s, 0, b, y) by { assert s[0..] == s; }
    AheadIs(s, 0, a, x, CLOSE_PAREN);
    AheadIs(s, 0, b, y, CLOSE_PAREN);
    if a != [] {
      hide Shaped, Closes, Ahead, IsArgument, AreArguments;
      FirstSame(a, b, x, y);
      ConcatDetermines(a[1..], b[1..], x, y);
      assert a == [a[0]] + a[1..] && b == [b[0]] + b[1..];
    }
  }

  lemma FirstSame(a: seq<seq<u1>>, b: seq<seq<u1>>, x: seq<u1>, y: seq<u1>)
    requires a != [] && b != [] && AreArguments(a) && AreArguments(b) && Concat(a) + x == Concat(b) + y
    ensures a[0] == b[0] && Concat(a[1..]) + x == Concat(b[1..]) + y && AreArguments(a[1..]) && AreArguments(b[1..])
  {
    hide Shaped, IsType;
    assert IsArgument(a[0]) && IsArgument(b[0]);
    ConcatFirst(a, x);
    ConcatFirst(b, y);
    hide Concat;
    SelfDelimiting(a[0], BracketCount(a[0]), b[0], BracketCount(b[0]), Concat(a[1..]) + x, Concat(b[1..]) + y);
  }

  lemma ConcatFirst(a: seq<seq<u1>>, x: seq<u1>)
    requires a != []
    ensures Concat(a) + x == a[0] + (Concat(a[1..]) + x)
  {
    Associative(a[0], Concat(a[1..]), x);
  }

  lemma Associative(a: seq<u1>, b: seq<u1>, c: seq<u1>)
    ensures a + b + c == a + (b + c)
  {
  }

  /** A method descriptor says all that there is to say about a prototype. */
  lemma TextDetermines(p: Signature, q: Signature)
    requires WellFormed(p) && WellFormed(q) && Text(p) == Text(q)
    ensures p == q
  {
    hide IsType, AreArguments, Concat;
    var x, y := [CLOSE_PAREN] + p.returnType, [CLOSE_PAREN] + q.returnType;
    assert Text(p)[1..] == Concat(p.parameters) + x && Text(q)[1..] == Concat(q.parameters) + y;
    ConcatDetermines(p.parameters, q.parameters, x, y);
    assert x[1..] == p.returnType && y[1..] == q.returnType;
  }

  /** No two prototypes of an accepted file have the same descriptor. */
  lemma DescriptorsAreUnique(dex: Dex, i: nat, j: nat)
    requires Accepted(dex) && i < |dex.protos| && j < |dex.protos|
    ensures HasList(dex, i) && HasList(dex, j)
    ensures Text(SignatureOf(dex, i)) == Text(SignatureOf(dex, j)) <==> i == j
  {
    hide Accepted, SignatureOf, Text, WellFormed;
    AcceptedIsLoaded(dex);
    AcceptedIsWellFormed(dex, i);
    AcceptedIsWellFormed(dex, j);
    var p, q := SignatureOf(dex, i), SignatureOf(dex, j);
    ProtoOrder(dex, i, j);
    if Text(p) == Text(q) {
      TextDetermines(p, q);
      CmpEqual(p.returnType, q.returnType);
      CmpTypesEqual(p.parameters, q.parameters);
    }
  }

  /* ---- chars ---- */

  function ByteAt(a: seq<u1>, k: nat): u1 {
    if k < |a| then a[k] else 0
  }

  /** Where the strings first differ, one has a byte of ASCII, or its end, and the other has not. */
  predicate Apart(a: seq<u1>, b: seq<u1>) {
    var k := FirstDiff(a, b);
    ByteAt(a, k) < 0x80 <==> ByteAt(b, k) >= 0x80
  }

  lemma {:induction false} CharsAtDiff(a: seq<u1>, b: seq<u1>, signedChars: bool)
    requires NoZero(a) && NoZero(b)
    ensures var k := FirstDiff(a, b);
      CmpChars(a, b, signedChars) == Sign(Char(ByteAt(a, k), signedChars) - Char(ByteAt(b, k), signedChars))
  {
    if a != [] && b != [] && a[0] == b[0] {
      CharsAtDiff(a[1..], b[1..], signedChars);
    }
  }

  /** Unsigned chars compare as strcmp does; signed ones exactly if the strings are not apart. */
  lemma CharOrder(a: seq<u1>, b: seq<u1>)
    requires NoZero(a) && NoZero(b)
    ensures CmpChars(a, b, false) == Cmp(a, b)
    ensures CmpChars(a, b, true) == Cmp(a, b) <==> !Apart(a, b)
    ensures CmpChars(a, b, true) == 0 <==> a == b
  {
    CharsAtDiff(a, b, false);
    CharsAtDiff(a, b, true);
    CmpAtDiff(a, b);
    CmpEqual(a, b);
    hide CmpChars, Cmp, FirstDiff;
  }

  /** The first parameters that differ are apart. */
  predicate TypesApart(a: seq<seq<u1>>, b: seq<seq<u1>>) {
    a != [] && b != [] && if a[0] == b[0] then TypesApart(a[1..], b[1..]) else Apart(a[0], b[0])
  }

  lemma {:induction false} TypeCharOrder(a: seq<seq<u1>>, b: seq<seq<u1>>)
    requires AreArguments(a) && AreArguments(b)
    ensures CmpTypeChars(a, b, false) == CmpTypes(a, b)
    ensures CmpTypeChars(a, b, true) == CmpTypes(a, b) <==> !TypesApart(a, b)
  {
    if a != [] && b != [] {
      assert IsArgument(a[0]) && IsArgument(b[0]);
      hide CmpChars, Cmp, Apart, IsType, NoZero;
      TypeNoZero(a[0]);
      TypeNoZero(b[0]);
      CharOrder(a[0], b[0]);
      CmpEqual(a[0], b[0]);
      TypeCharOrder(a[1..], b[1..]);
    }
  }

  /**
   dexProtoCompareToDescriptor orders as protoCompare does where chars are unsigned. Where they are signed
   it does so exactly if the first parameters that differ, of prototypes with one return type, are not apart.
   */
  lemma TextOrder(p: Signature, q: Signature)
    requires WellFormed(p) && WellFormed(q)
    ensures CmpToText(p, q, false) == CmpSignatures(p, q, true)
    ensures CmpToText(p, q, true) == CmpSignatures(p, q, true) <==>
        p.returnType != q.returnType ||
        !TypesApart(p.parameters, q.parameters)
  {
    hide CmpTypeChars, CmpTypes, TypesApart;
    TypeCharOrder(p.parameters, q.parameters);
    CmpEqual(p.returnType, q.returnType);
  }

  const ASCII_NAME: seq<u1> := [CLASS, 'a' as int, SEMICOLON]
  const ACCENTED_NAME: seq<u1> := [CLASS, 0xc3, 0xa9, SEMICOLON]

  lemma NamesAreTypes()
    ensures IsArgument(ASCII_NAME) && IsArgument(ACCENTED_NAME) && IsType([VOID])
  {
    assert ACCENTED_NAME[1..3] == [0xc3, 0xa9];
    assert Shaped(ASCII_NAME, 0) && Shaped(ACCENTED_NAME, 0) && Shaped([VOID], 0);
  }

  /** A parameter of class "a" against one of class "e with an acute accent": the two comparisons contradict
      each other. */
  lemma SignedCharsDisagree()
    ensures var p, q := Signature([VOID], [ASCII_NAME]), Signature([VOID], [ACCENTED_NAME]);
      && WellFormed(p) && WellFormed(q)
      && CmpSignatures(p, q, true) == -1 && CmpToText(p, q, true) == 1
  {
    NamesAreTypes();
    var a, b := ASCII_NAME, ACCENTED_NAME;
    hide IsType;
    assert Cmp(a[1..], b[1..]) == -1 && CmpChars(a[1..], b[1..], true) == 1;
    assert Cmp(a, b) == -1 && CmpChars(a, b, true) == 1;
    CmpEqual([VOID], [VOID]);
  }

  /** A prototype of one file against the printed descriptor of another's: the order is protoCompare's. */
  method CompareToPrinted(dex1: Dex, i1: nat, dex2: Dex, i2: nat, cache: StringCache) returns (r: int)
    requires Accepted(dex1) && i1 < |dex1.protos| && Accepted(dex2) && i2 < |dex2.protos| && cache.Valid()
    modifies cache, cache.value, cache.buffer
    ensures HasList(dex1, i1) && HasList(dex2, i2)
    ensures Sign(r) == CmpSignatures(SignatureOf(dex1, i1), SignatureOf(dex2, i2), true)
    ensures dex1 == dex2 ==> Sign(r) == Sign(i1 - i2)
  {
    hide Accepted, Loaded, Holds, Text, WellFormed, CmpSignatures, CmpToText, HasList, SignatureOf;
    AcceptedIsWellFormed(dex1, i1);
    AcceptedIsWellFormed(dex2, i2);
    AcceptedIsLoaded(dex1);
    AcceptedIsLoaded(dex2);
    GetMethodDescriptor(dex2, i2, cache);
    ghost var q := SignatureOf(dex2, i2);
    TextNoZero(q);
    var s := Read(cache.value, Text(q));
    r := CompareToDescriptor(dex1, i1, s, false, q);
    TextOrder(SignatureOf(dex1, i1), q);
    if dex1 == dex2 {
      ProtoOrder(dex1, i1, i2);
    }
  }

  /** The C string that a buffer holds. */
  method Read(a: array<u1>, ghost t: seq<u1>) returns (s: seq<u1>)
    requires Holds(a, t + [0]) && NoZero(t)
    ensures s == t
  {
    assert a[..|t|] == (t + [0])[..|t|];
    assert a[|t|] == (t + [0])[|t|];
    var i := 0;
    while a[i] != 0
      invariant i <= |t| < a.Length && a[..i] == t[..i]
      decreases |t| - i
    {
      i := i + 1;
    }
    s := a[..i];
  }
}
