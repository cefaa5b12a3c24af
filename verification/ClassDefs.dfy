/**
 Class definitions: crossVerifyClassDefItem of DexSwapVerify.cpp, its bit set of classes already defined,
 and what follows for the class lookup.
 */
module ClassDefs {
  import opened CStrings
  import opened Leb128
  import opened Options
  import opened Lexical
  import opened Descriptors
  import opened DexIds
  import ClassTable

  /**
   A class_def_item: its file offset, its class, superclass (None is kDexNoIndex) and interfaces, and
   whether its other parts, which belong to other passes, are as they should be.
   */
  datatype ClassItem = ClassItem(offset: nat, classIdx: nat, superclassIdx: Option<nat>, interfacesOff: nat,
      restOk: bool)

  /* ---- the bit set ---- */

  function Bit(i: int): bv32
    requires 0 <= i < 32
  {
    1 << i
  }

  function And(a: bv32, b: bv32): bv32 {
    a & b
  }

  function Joined(a: bv32, b: bv32): bv32 {
    a | b
  }

  predicate Meet(a: bv32, b: bv32) {
    And(a, b) != 0
  }

  lemma BitsMeet(i: int, j: int)
    requires 0 <= i < 32 && 0 <= j < 32
    ensures Meet(Bit(i), Bit(j)) <==> i == j
  {
  }

  lemma JoinedMeets(a: bv32, b: bv32, c: bv32)
    ensures Meet(Joined(a, b), c) <==> Meet(a, c) || Meet(b, c)
  {
    hide And, Joined;
    Distributes(a, b, c);
    JoinedIsZero(And(a, c), And(b, c));
  }

  lemma Distributes(a: bv32, b: bv32, c: bv32)
    ensures And(Joined(a, b), c) == Joined(And(a, c), And(b, c))
  {
  }

  lemma JoinedIsZero(a: bv32, b: bv32)
    ensures Joined(a, b) == 0 <==> a == 0 && b == 0
  {
  }

  /** calcDefinedClassBitsSize. */
  function BitsSize(typeIds: nat): nat {
    (typeIds + 0x1f) / 0x20
  }

  /** The types whose bits are set. */
  predicate Defined(bits: seq<bv32>, t: nat)
    requires t / 0x20 < |bits|
  {
    Meet(bits[t / 0x20], Bit(t % 0x20))
  }

  lemma SetDefines(bits: seq<bv32>, t: nat, u: nat)
    requires t / 0x20 < |bits| && u / 0x20 < |bits|
    ensures Defined(bits[t / 0x20 := Joined(bits[t / 0x20], Bit(t % 0x20))], u) <==> u == t || Defined(bits, u)
  {
    hide Meet, Bit, Joined;
    JoinedMeets(bits[t / 0x20], Bit(t % 0x20), Bit(u % 0x20));
    BitsMeet(t % 0x20, u % 0x20);
  }

  /** setDefinedClassBit: whether the bit was set before. */
  method SetDefinedClassBit(bits: array<bv32>, typeIdx: nat) returns (was: bool)
    requires typeIdx / 0x20 < bits.Length
    modifies bits
    ensures was == old(Defined(bits[..], typeIdx))
    ensures forall u: nat | u / 0x20 < bits.Length ::
        Defined(bits[..], u) <==> u == typeIdx || old(Defined(bits[..], u))
  {
    hide Meet, Bit, Joined, Defined;
    ghost var before := bits[..];
    var arrayIdx, bit := typeIdx / 0x20, Bit(typeIdx % 0x20);
    was := Meet(bits[arrayIdx], bit);
    DefinedIs(before, typeIdx);
    bits[arrayIdx] := Joined(bits[arrayIdx], bit);
    assert bits[..] == before[arrayIdx := Joined(before[arrayIdx], bit)];
    forall u: nat | u / 0x20 < bits.Length ensures Defined(bits[..], u) <==> u == typeIdx || Defined(before, u) {
      SetDefines(before, typeIdx, u);
    }
  }

  lemma DefinedIs(bits: seq<bv32>, t: nat)
    requires t / 0x20 < |bits|
    ensures Defined(bits, t) <==> Meet(bits[t / 0x20], Bit(t % 0x20))
  {
  }

  /* ---- the verifier ---- */

  /** What dexIsClassDescriptor stands for. */
  predicate IsClass(dex: Dex, t: nat)
    requires t < |dex.types| && dex.types[t] < |dex.strings|
  {
    var us := Marks(StringByTypeIdx(dex, t), 0);
    TypeDescriptor(us) && us != [] && us[0] == CLASS
  }

  /** dexIsClassDescriptor, on a string of the file. */
  method IsClassDescriptor(dex: Dex, t: nat) returns (ok: bool)
    requires Loaded(dex) && t < |dex.types|
    ensures ok <==> IsClass(dex, t)
  {
    hide Marks, Descriptors.Descriptor, At, IsStringData;
    var s := StringByTypeIdx(dex, t);
    ok := IsValid(s, false, false);
    if ok {
      NotEmpty(Marks(s, 0));
      See(s, 0);
      FirstIsByte(s);
      ok := At(s, 0) == CLASS;
    }
  }

  lemma NotEmpty(us: seq<u2>)
    requires TypeDescriptor(us)
    ensures us != []
  {
  }

  lemma FirstIsByte(s: seq<u1>)
    requires Marks(s, 0) != []
    ensures At(s, 0) == CLASS <==> Marks(s, 0)[0] == CLASS
  {
  }

  ghost predicate ItemsLoaded(dex: Dex, defs: seq<ClassItem>) {
    forall i | 0 <= i < |defs| ::
      defs[i].classIdx < |dex.types| && (defs[i].superclassIdx.Some? ==> defs[i].superclassIdx.value < |dex.types|)
  }

  function Interfaces(dex: Dex, off: nat): seq<nat>
    requires off == 0 || off in dex.typeLists
  {
    if off == 0 then [] else dex.typeLists[off]
  }

  predicate Distinct(list: seq<nat>) {
    forall i, j | 0 <= i < j < |list| :: list[i] != list[j]
  }

  ghost predicate InterfacesOk(dex: Dex, list: seq<nat>)
    requires Loaded(dex) && ListOk(dex, list)
  {
    (forall k | 0 <= k < |list| :: IsClass(dex, list[k])) && Distinct(list)
  }

  /** What crossVerifyClassDefItem asks of an item by itself. */
  ghost predicate ClassItemOk(dex: Dex, item: ClassItem)
    requires Loaded(dex) && item.classIdx < |dex.types| &&
        (item.superclassIdx.Some? ==> item.superclassIdx.value < |dex.types|)
  {
    && IsClass(dex, item.classIdx) && item.restOk
    && (item.superclassIdx.Some? ==> IsClass(dex, item.superclassIdx.value))
    && (item.interfacesOff == 0 || item.interfacesOff in dex.typeLists)
    && InterfacesOk(dex, Interfaces(dex, item.interfacesOff))
  }

  ghost predicate ClassDefsOk(dex: Dex, defs: seq<ClassItem>)
    requires Loaded(dex) && ItemsLoaded(dex, defs)
  {
    && (forall i | 0 <= i < |defs| :: ClassItemOk(dex, defs[i]))
    && forall i, j | 0 <= i < j < |defs| :: defs[i].classIdx != defs[j].classIdx
  }

  method VerifyInterfaces(dex: Dex, list: seq<nat>) returns (ok: bool)
    requires Loaded(dex) && ListOk(dex, list)
    ensures ok <==> InterfacesOk(dex, list)
  {
    hide IsClass, IsStringData;
    for i := 0 to |list|
      invariant forall k | 0 <= k < i :: IsClass(dex, list[k])
    {
      ok := IsClassDescriptor(dex, list[i]);
      if !ok {
        return;
      }
    }
    var i := 1;
    while i < |list|
      invariant 1 <= i && forall a, b | 0 <= a < b < i && b < |list| :: list[a] != list[b]
    {
      for j := 0 to i
        invariant forall a | 0 <= a < j :: list[a] != list[i]
      {
        if list[i] == list[j] {
          return false;
        }
      }
      i := i + 1;
    }
    ok := true;
  }

  /** crossVerifyClassDefItem. */
  method CrossVerifyClassDef(dex: Dex, item: ClassItem, bits: array<bv32>) returns (ok: bool)
    requires Loaded(dex) && bits.Length == BitsSize(|dex.types|)
    requires item.classIdx < |dex.types| && (item.superclassIdx.Some? ==> item.superclassIdx.value < |dex.types|)
    modifies bits
    ensures ok <==> ClassItemOk(dex, item) && !old(Defined(bits[..], item.classIdx))
    ensures ok ==> forall u: nat | u < |dex.types| ::
        Defined(bits[..], u) <==> u == item.classIdx || old(Defined(bits[..], u))
  {
    hide IsClass, IsStringData, InterfacesOk, Defined;
    ok := IsClassDescriptor(dex, item.classIdx);
    if !ok {
      return;
    }
    var was := SetDefinedClassBit(bits, item.classIdx);
    if was {
      return false;
    }
    if !(item.interfacesOff == 0 || item.interfacesOff in dex.typeLists) || !item.restOk {
      return false;
    }
    if item.superclassIdx.Some? {
      ok := IsClassDescriptor(dex, item.superclassIdx.value);
      if !ok {
        return;
      }
    }
    ok := VerifyInterfaces(dex, Interfaces(dex, item.interfacesOff));
  }

  /** The class_defs part of crossVerifyEverything. */
  method CrossVerifyClassDefs(dex: Dex, defs: seq<ClassItem>) returns (ok: bool)
    requires Loaded(dex) && ItemsLoaded(dex, defs)
    ensures ok <==> ClassDefsOk(dex, defs)
  {
    hide Loaded, ClassItemOk, Defined;
    var bits := new bv32[BitsSize(|dex.types|)](_ => 0);
    NoneDefined(bits[..]);
    for i := 0 to |defs|
      invariant forall k | 0 <= k < i :: ClassItemOk(dex, defs[k])
      invariant forall a, b | 0 <= a < b < i :: defs[a].classIdx != defs[b].classIdx
      invariant forall u: nat | u < |dex.types| :: Defined(bits[..], u) <==> exists k ::
          0 <= k < i && defs[k].classIdx == u
    {
      ok := CrossVerifyClassDef(dex, defs[i], bits);
      if !ok {
        return;
      }
    }
    ok := true;
  }

  lemma NoneDefined(bits: seq<bv32>)
    requires forall k | 0 <= k < |bits| :: bits[k] == 0
    ensures forall u: nat | u / 0x20 < |bits| :: !Defined(bits, u)
  {
    forall u: nat | u / 0x20 < |bits| ensures !Defined(bits, u) {
      Nothing(Bit(u % 0x20));
    }
  }

  lemma Nothing(b: bv32)
    ensures !Meet(0, b)
  {
  }

  /* ---- the lookup ---- */

  function Descriptor(dex: Dex, item: ClassItem): seq<u1>
    requires Loaded(dex) && item.classIdx < |dex.types|
  {
    StringByTypeIdx(dex, item.classIdx)
  }

  /** What dexCreateClassLookup puts into the table. */
  function Entry(dex: Dex, item: ClassItem): ClassTable.ClassDef
    requires Loaded(dex) && item.classIdx < |dex.types|
  {
    ClassTable.ClassDef(SkipLength(dex.bytes, dex.strings[dex.types[item.classIdx]]), item.offset)
  }

  function Entries(dex: Dex, defs: seq<ClassItem>): (r: seq<ClassTable.ClassDef>)
    requires Loaded(dex) && ItemsLoaded(dex, defs)
    ensures |r| == |defs|
    ensures forall i | 0 <= i < |defs| :: r[i] == Entry(dex, defs[i])
  {
    seq(|defs|, i requires 0 <= i < |defs| => Entry(dex, defs[i]))
  }

  /** No two classes of an accepted file have the same descriptor, so each is found by its own. */
  lemma EveryClassIsFound(dex: Dex, defs: seq<ClassItem>, i: nat)
    requires Accepted(dex) && ItemsLoaded(dex, defs) && ClassDefsOk(dex, defs) && i < |defs|
    ensures var contents := ClassTable.AddAll(dex.bytes, Entries(dex, defs));
      Descriptor(dex, defs[i]) in contents && contents[Descriptor(dex, defs[i])] == defs[i].offset
  {
    hide Accepted, Loaded, ClassItemOk, CString, SkipLength, Cmp, ClassTable.AddAll;
    AcceptedParts(dex);
    var es, key := Entries(dex, defs), Descriptor(dex, defs[i]);
    forall j | 0 <= j < i ensures CString(dex.bytes, es[j].stringOff) != key {
      TypeOrder(dex, defs[j].classIdx, defs[i].classIdx);
      CmpEqual(Descriptor(dex, defs[j]), key);
    }
    ClassTable.FirstIsKept(dex.bytes, es, key);
  }

  lemma AcceptedParts(dex: Dex)
    requires Accepted(dex)
    ensures Loaded(dex) && StringIdsOk(dex) && TypeIdsOk(dex)
  {
  }

  /** dexCreateClassLookup and dexFindClass, on an accepted file. */
  method FindDefined(dex: Dex, defs: seq<ClassItem>, i: nat) returns (r: Option<int>)
    requires Accepted(dex) && ItemsLoaded(dex, defs) && ClassDefsOk(dex, defs) && i < |defs| <= 0x4000_0000
    ensures r == Some(defs[i].offset)
  {
    hide Accepted, Loaded, ClassDefsOk, CString, SkipLength, ClassTable.AddAll;
    AcceptedParts(dex);
    EveryClassIsFound(dex, defs, i);
    Offsets(dex, defs);
    var lookup := ClassTable.CreateClassLookup(dex.bytes, Entries(dex, defs));
    r := lookup.FindClass(Descriptor(dex, defs[i]));
  }

  lemma Offsets(dex: Dex, defs: seq<ClassItem>)
    requires Loaded(dex) && ItemsLoaded(dex, defs)
    ensures forall e | e in Entries(dex, defs) :: e.stringOff > 0
  {
    forall e | e in Entries(dex, defs) ensures e.stringOff > 0 {
      var i :| 0 <= i < |defs| && e == Entry(dex, defs[i]);
      SkipMoves(dex.bytes, dex.strings[dex.types[defs[i].classIdx]]);
    }
  }

  lemma {:induction false} SkipMoves(file: seq<u1>, pos: nat)
    ensures SkipLength(file, pos) > pos
    decreases |file| - pos
  {
    if At(file, pos) > 0x7f {
      SkipMoves(file, pos + 1);
    }
  }
}
