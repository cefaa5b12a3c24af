/** The class lookup table of libdex/DexFile.cpp: descriptors to class definitions. */
module ClassTable {
  import opened CStrings
  import opened Leb128
  import opened PowerOfTwo
  import opened Probing
  import opened Options

  /** classDescriptorHash. */
  method ClassDescriptorHash(str: seq<u1>) returns (hash: u4)
    ensures hash == Hash(1, str)
  {
    hash := 1;
    for i := 0 to |str|
      invariant hash == Hash(1, str[..i])
    {
      assert str[..i + 1][..i] == str[..i];
      hash := (hash * 31 + str[i]) % 0x1_0000_0000;
    }
    assert str[..|str|] == str;
  }

  /** DexClassLookup. A descriptor offset of 0 marks an empty slot. */
  class DexClassLookup {
    const file: seq<u1>
    const numEntries: nat
    const hashes: array<u4>
    const stringOffs: array<nat>
    const classDefOffs: array<nat>
    ghost var contents: map<seq<u1>, int>

    function SlotAt(i: nat): Slot
      requires i < stringOffs.Length && i < classDefOffs.Length
      reads stringOffs, classDefOffs
    {
      if stringOffs[i] == 0 then Empty else Full(CString(file, stringOffs[i]), classDefOffs[i])
    }

    ghost function Slots(): (t: seq<Slot>)
      requires stringOffs.Length == classDefOffs.Length
      reads stringOffs, classDefOffs
      ensures |t| == stringOffs.Length
    {
      seq(stringOffs.Length, i requires 0 <= i < stringOffs.Length reads stringOffs, classDefOffs => SlotAt(i))
    }

    ghost predicate Shape()
    {
      && stringOffs.Length == classDefOffs.Length == hashes.Length == numEntries
      && stringOffs != classDefOffs
      && (numEntries == 0 || exists k: nat :: numEntries == Pow2(k))
    }

    ghost predicate Valid()
      reads this, hashes, stringOffs, classDefOffs
    {
      && Shape()
      && (forall i | 0 <= i < numEntries && stringOffs[i] != 0 :: hashes[i] == Hash(1, CString(file, stringOffs[i])))
      && Holds(1, Slots(), contents)
    }

    constructor (file: seq<u1>, numEntries: nat)
      requires numEntries == 0 || exists k: nat :: numEntries == Pow2(k)
      ensures Valid() && contents == map[] && Count(Slots()) == 0 && this.file == file && this.numEntries == numEntries
      ensures fresh(hashes) && fresh(stringOffs) && fresh(classDefOffs)
    {
      this.file := file;
      this.numEntries := numEntries;
      hashes := new u4[numEntries](_ => 0);
      stringOffs := new nat[numEntries](_ => 0);
      classDefOffs := new nat[numEntries](_ => 0);
      contents := map[];
      new;
      NoneHolds(1, Slots());
      CountNone(Slots());
    }

    /** `x & mask`. */
    method Masked(x: nat) returns (idx: nat)
      requires Shape() && numEntries > 0
      ensures idx == x % numEntries < numEntries
    {
      ghost var k: nat :| numEntries == Pow2(k);
      MaskIsRemainder(x, k);
      hide And, Pow2;
      idx := And(x, numEntries - 1);
    }

    lemma SlotIs(i: nat)
      requires stringOffs.Length == classDefOffs.Length && i < stringOffs.Length
      ensures Slots()[i] == SlotAt(i) && |Slots()| == stringOffs.Length
    {
    }

    lemma FullIs(i: nat)
      requires i < stringOffs.Length && i < classDefOffs.Length
      ensures SlotAt(i).Empty? <==> stringOffs[i] == 0
      ensures stringOffs[i] != 0 ==> SlotAt(i) == Full(CString(file, stringOffs[i]), classDefOffs[i])
    {
    }

    /** The probing of classLookupAdd. There is an empty slot, so the loop ends. */
    method FindEmpty(hash: u4, ghost key: seq<u1>) returns (idx: nat)
      requires Shape() && hash == Hash(1, key) && Count(Slots()) < numEntries
      ensures idx < numEntries && Slots()[idx].Empty? && Reached(Slots(), Home(1, key, numEntries), idx)
    {
      hide Hash, Home, Dist, Reached, Count, SlotAt, Slots;
      ghost var t := Slots();
      idx := Masked(hash);
      HomeIs(1, key, numEntries);
      PassedHome(1, t, key);
      SomeEmpty(t);
      ghost var e :| 0 <= e < |t| && t[e].Empty?;
      SlotIs(idx);
      FullIs(idx);
      while stringOffs[idx] != 0
        invariant idx < numEntries && Reached(t, Home(1, key, |t|), idx)
        invariant t[idx].Empty? <==> stringOffs[idx] == 0
        decreases |t| - Dist(|t|, Home(1, key, |t|), idx)
      {
        PassOn(t, Home(1, key, |t|), idx, e);
        idx := Masked(idx + 1);
        SlotIs(idx);
        FullIs(idx);
      }
    }

    /** classLookupAdd. */
    method Add(stringOff: nat, classDefOff: nat)
      requires Valid() && 0 < stringOff && Count(Slots()) < numEntries
      modifies `contents, hashes, stringOffs, classDefOffs
      ensures Valid() && contents == Added(old(contents), CString(file, stringOff), classDefOff)
      ensures Count(Slots()) == old(Count(Slots())) + 1
    {
      hide Hash, Holds, Home, Dist, Reached, Count, CString, Shape;
      Shapes();
      ghost var t := Slots();
      ghost var key := CString(file, stringOff);
      var hash := ClassDescriptorHash(CString(file, stringOff));
      var idx := FindEmpty(hash, key);
      AddHolds(1, t, contents, key, classDefOff, idx);
      CountAdd(t, idx, Full(key, classDefOff));
      contents := Added(contents, key, classDefOff);
      hashes[idx] := hash;
      stringOffs[idx] := stringOff;
      classDefOffs[idx] := classDefOff;
      assert Slots() == t[idx := Full(key, classDefOff)];
    }

    lemma Shapes()
      requires Shape()
      ensures stringOffs.Length == classDefOffs.Length == hashes.Length == numEntries && stringOffs != classDefOffs
    {
    }

    /** dexFindClass: the entry first added with the descriptor, or none exactly if there is none. */
    method FindClass(descriptor: seq<u1>) returns (r: Option<int>)
      requires Valid() && Count(Slots()) < numEntries && 0 !in descriptor
      ensures r == if descriptor in contents then Some(contents[descriptor]) else None
    {
      hide Hash, Holds, Home, Dist, Passed, Found, Count, CString, SlotAt, Slots;
      ghost var t := Slots();
      var hash := ClassDescriptorHash(descriptor);
      var idx := Masked(hash);
      HomeIs(1, descriptor, numEntries);
      PassedHome(1, t, descriptor);
      SomeEmpty(t);
      ghost var e :| 0 <= e < |t| && t[e].Empty?;
      while true
        invariant 0 <= idx < numEntries && Passed(1, t, descriptor, idx)
        decreases |t| - Dist(|t|, Home(1, descriptor, |t|), idx)
      {
        SlotIs(idx);
        FullIs(idx);
        var offset := stringOffs[idx];
        if offset == 0 {
          AbsentHere(1, t, contents, descriptor, idx);
          return None;
        }
        if hashes[idx] == hash && CString(file, offset) == descriptor {
          StopsAtKey(1, t, descriptor, idx);
          Present(1, t, contents, descriptor, idx);
          return Some(classDefOffs[idx]);
        }
        PassKey(1, t, descriptor, idx, e);
        idx := Masked(idx + 1);
      }
    }
  }

  lemma HomeIs(start: u4, key: seq<u1>, n: nat)
    requires n > 0
    ensures Home(start, key, n) == Hash(start, key) % n
  {
    hide Hash;
  }

  lemma AbsentHere(start: u4, t: seq<Slot>, m: map<seq<u1>, int>, key: seq<u1>, s: nat)
    requires Holds(start, t, m) && s < |t| && t[s].Empty? && Passed(start, t, key, s)
    ensures key !in m
  {
    hide Hash, Home, Dist, Holds;
    Absent(start, t, m, key, s);
  }

  /* ---- the whole table ---- */

  /** A class as dexCreateClassLookup sees it: where its descriptor and its definition are. */
  datatype ClassDef = ClassDef(stringOff: nat, classDefOff: nat)

  function AddAll(file: seq<u1>, defs: seq<ClassDef>): map<seq<u1>, int> {
    if defs == [] then map[]
    else
      var d := defs[|defs| - 1];
      Added(AddAll(file, defs[..|defs| - 1]), CString(file, d.stringOff), d.classDefOff)
  }

  /** Of several classes with one descriptor the first is kept, and nothing else is. */
  lemma {:induction false} FirstIsKept(file: seq<u1>, defs: seq<ClassDef>, key: seq<u1>)
    ensures key in AddAll(file, defs) <==> exists i :: 0 <= i < |defs| && CString(file, defs[i].stringOff) == key
    ensures forall i | 0 <= i < |defs| && CString(file, defs[i].stringOff) == key
        && (forall j | 0 <= j < i :: CString(file, defs[j].stringOff) != key) ::
      key in AddAll(file, defs) && AddAll(file, defs)[key] == defs[i].classDefOff
  {
    if defs != [] {
      var n := |defs| - 1;
      FirstIsKept(file, defs[..n], key);
      assert forall i | 0 <= i < n :: defs[..n][i] == defs[i];
    }
  }

  /**
   dexCreateClassLookup. The table is a power of two beyond the number of classes, which is what lets all
   probing end; but without any class it has no slot at all, and dexFindClass must not be called. There are
   less than 2^30 classes, as each takes 32 bytes of a file that a 32-bit size fits.
   */
  method CreateClassLookup(file: seq<u1>, defs: seq<ClassDef>) returns (lookup: DexClassLookup)
    requires |defs| <= 0x4000_0000 && forall d | d in defs :: d.stringOff > 0
    ensures fresh(lookup) && lookup.Valid() && lookup.file == file && lookup.contents == AddAll(file, defs)
    ensures Count(lookup.Slots()) == |defs| && (|defs| < lookup.numEntries <==> |defs| > 0)
  {
    hide Pow2, Holds, Count, CString;
    var numEntries := RoundUpPower2(|defs| * 2);
    lookup := new DexClassLookup(file, numEntries);
    for i := 0 to |defs|
      invariant fresh(lookup) && fresh(lookup.hashes) && fresh(lookup.stringOffs) && fresh(lookup.classDefOffs)
      invariant lookup.Valid() && lookup.file == file && lookup.numEntries == numEntries
      invariant lookup.contents == AddAll(file, defs[..i]) && Count(lookup.Slots()) == i
    {
      assert defs[..i + 1][..i] == defs[..i];
      assert defs[i] in defs;
      lookup.Add(defs[i].stringOff, defs[i].classDefOff);
    }
    assert defs[..|defs|] == defs;
  }
}
