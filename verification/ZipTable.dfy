/** The name table of a zip archive: libdex/ZipArchive.cpp, the part that works in memory. */
module ZipTable {
  import opened Leb128
  import opened PowerOfTwo
  import opened Probing
  import opened Options

  const CDE_SIGNATURE: u4 := 0x0201_4b50
  const CDE_LEN: nat := 46
  const CDE_NAME_LEN: nat := 28
  const CDE_EXTRA_LEN: nat := 30
  const CDE_COMMENT_LEN: nat := 32
  const CDE_LOCAL_OFFSET: nat := 42

  /** get2LE and get4LE. */
  function Get2LE(cd: seq<u1>, p: nat): (x: nat)
    ensures x < 0x1_0000
  {
    At(cd, p) + At(cd, p + 1) * 0x100
  }

  function Get4LE(cd: seq<u1>, p: nat): nat {
    At(cd, p) + At(cd, p + 1) * 0x100 + At(cd, p + 2) * 0x1_0000 + At(cd, p + 3) * 0x100_0000
  }

  /** The name of `len` bytes at `ptr` in the central directory. */
  function Name(cd: seq<u1>, ptr: nat, len: nat): (s: seq<u1>)
    ensures |s| == len
  {
    if len == 0 then [] else Name(cd, ptr, len - 1) + [ByteAt(cd, ptr + len - 1)]
  }

  function ByteAt(cd: seq<u1>, i: nat): u1 {
    At(cd, i)
  }

  datatype Entry = Entry(ptr: nat, len: nat)

  /** The local offset as a long, which has 64 bits if `wide` and 32 otherwise. */
  function LocalOffset(cd: seq<u1>, ptr: nat, wide: bool): int {
    var x := Get4LE(cd, ptr + CDE_LOCAL_OFFSET);
    if wide || x < 0x8000_0000 then x else x - 0x1_0000_0000
  }

  /** Whether a directory entry passes the checks of parseZipArchive, and where the next one begins. */
  predicate EntryOk(cd: seq<u1>, ptr: nat, directoryOffset: int, wide: bool) {
    && Get4LE(cd, ptr) == CDE_SIGNATURE
    && ptr + CDE_LEN <= |cd|
    && LocalOffset(cd, ptr, wide) < directoryOffset
    && AfterEntry(cd, ptr) <= |cd|
  }

  /** What a long of 32 bits lets pass: local offsets from 2^31 on, which lie beyond the directory. */
  lemma NarrowLong(cd: seq<u1>, ptr: nat, directoryOffset: int)
    requires 0 <= directoryOffset < 0x8000_0000
    ensures EntryOk(cd, ptr, directoryOffset, false) && !EntryOk(cd, ptr, directoryOffset, true) <==>
        EntryOk(cd, ptr, 0x1_0000_0000, true) && 0x8000_0000 <= LocalOffset(cd, ptr, true)
  {
    assert Get4LE(cd, ptr + CDE_LOCAL_OFFSET) < 0x1_0000_0000;
  }

  /** A directory of one entry without a name, whose local header is said to be at 2^31. */
  lemma FarHeaderPasses()
    ensures var cd := [0x50, 0x4b, 0x01, 0x02] + seq(38, _ => 0) + [0, 0, 0, 0x80];
      EntryOk(cd, 0, 1, false) && !EntryOk(cd, 0, 1, true)
  {
  }

  function AfterEntry(cd: seq<u1>, ptr: nat): nat {
    ptr + CDE_LEN + Get2LE(cd, ptr + CDE_NAME_LEN) + Get2LE(cd, ptr + CDE_EXTRA_LEN) + Get2LE(cd, ptr + CDE_COMMENT_LEN)
  }

  function EntryAt(cd: seq<u1>, ptr: nat): Entry {
    Entry(ptr + CDE_LEN, Get2LE(cd, ptr + CDE_NAME_LEN))
  }

  /** The names of the first n entries from ptr on, if all of them pass. */
  function Directory(cd: seq<u1>, ptr: nat, n: nat, directoryOffset: int, wide: bool): Option<seq<Entry>>
    decreases n
  {
    if n == 0 then Some([])
    else if !EntryOk(cd, ptr, directoryOffset, wide) then None
    else
      match Directory(cd, AfterEntry(cd, ptr), n - 1, directoryOffset, wide)
      case None => None
      case Some(rest) => Some([EntryAt(cd, ptr)] + rest)
  }

  function AddAll(cd: seq<u1>, es: seq<Entry>): map<seq<u1>, int> {
    if es == [] then map[]
    else
      var e := es[|es| - 1];
      Added(AddAll(cd, es[..|es| - 1]), Name(cd, e.ptr, e.len), e.ptr)
  }

  /** Of several entries with one name the first is kept, and nothing else is. */
  lemma {:induction false} FirstIsKept(cd: seq<u1>, es: seq<Entry>, key: seq<u1>)
    ensures key in AddAll(cd, es) <==> exists i :: 0 <= i < |es| && Name(cd, es[i].ptr, es[i].len) == key
    ensures forall i | 0 <= i < |es| && Name(cd, es[i].ptr, es[i].len) == key
        && (forall j | 0 <= j < i :: Name(cd, es[j].ptr, es[j].len) != key) ::
      key in AddAll(cd, es) && AddAll(cd, es)[key] == es[i].ptr
  {
    hide Name;
    if es != [] {
      var n := |es| - 1;
      FirstIsKept(cd, es[..n], key);
      assert forall i | 0 <= i < n :: es[..n][i] == es[i];
    }
  }

  /** computeHash. */
  method ComputeHash(str: seq<u1>) returns (hash: u4)
    ensures hash == Hash(0, str)
  {
    hash := 0;
    for i := 0 to |str|
      invariant hash == Hash(0, str[..i])
    {
      assert str[..i + 1][..i] == str[..i];
      hash := (hash * 31 + str[i]) % 0x1_0000_0000;
    }
    assert str[..|str|] == str;
  }

  /** The table in a ZipArchive. A name pointer of NULL is -1. */
  class ZipArchive {
    const cd: seq<u1>
    const hashTableSize: nat
    const names: array<int>
    const nameLens: array<nat>
    ghost var contents: map<seq<u1>, int>

    function SlotAt(i: nat): Slot
      requires i < names.Length && i < nameLens.Length
      reads names, nameLens
    {
      if names[i] < 0 then Empty else Full(Name(cd, names[i], nameLens[i]), names[i])
    }

    ghost function Slots(): (t: seq<Slot>)
      requires names.Length == nameLens.Length
      reads names, nameLens
      ensures |t| == names.Length
    {
      seq(names.Length, i requires 0 <= i < names.Length reads names, nameLens => SlotAt(i))
    }

    ghost predicate Shape()
    {
      && names.Length == nameLens.Length == hashTableSize
      && exists k: nat :: hashTableSize == Pow2(k)
    }

    ghost predicate Valid()
      reads this, names, nameLens
    {
      Shape() && Holds(0, Slots(), contents)
    }

    constructor (cd: seq<u1>, hashTableSize: nat)
      requires exists k: nat :: hashTableSize == Pow2(k)
      ensures Valid() && contents == map[] && Count(Slots()) == 0 && this.cd == cd &&
          this.hashTableSize == hashTableSize
      ensures fresh(names) && fresh(nameLens)
    {
      this.cd := cd;
      this.hashTableSize := hashTableSize;
      names := new int[hashTableSize](_ => -1);
      nameLens := new nat[hashTableSize](_ => 0);
      contents := map[];
      new;
      NoneHolds(0, Slots());
      CountNone(Slots());
    }

    /** `x & (hashTableSize - 1)`. */
    method Masked(x: nat) returns (ent: nat)
      requires Shape()
      ensures ent == x % hashTableSize < hashTableSize
    {
      ghost var k: nat :| hashTableSize == Pow2(k);
      MaskIsRemainder(x, k);
      hide And, Pow2;
      ent := And(x, hashTableSize - 1);
    }

    lemma SlotIs(i: nat)
      requires names.Length == nameLens.Length && i < names.Length
      ensures Slots()[i] == SlotAt(i) && |Slots()| == names.Length
      ensures SlotAt(i).Empty? <==> names[i] < 0
      ensures names[i] >= 0 ==> SlotAt(i) == Full(Name(cd, names[i], nameLens[i]), names[i])
    {
    }

    /** The probing of addToHash. There is an empty slot, so the loop ends. */
    method FindEmpty(hash: u4, ghost key: seq<u1>) returns (ent: nat)
      requires Shape() && hash == Hash(0, key) && Count(Slots()) < hashTableSize
      ensures ent < hashTableSize && Slots()[ent].Empty? && Reached(Slots(), Home(0, key, hashTableSize), ent)
    {
      hide Hash, Home, Dist, Reached, Count, SlotAt, Slots, Shape, Pow2, Name;
      Shapes();
      ghost var t := Slots();
      ent := Masked(hash);
      HomeIs(key, hashTableSize);
      PassedHome(0, t, key);
      SomeEmpty(t);
      ghost var e :| 0 <= e < |t| && t[e].Empty?;
      SlotIs(ent);
      while names[ent] >= 0
        invariant ent < hashTableSize && Reached(t, Home(0, key, |t|), ent)
        invariant t[ent].Empty? <==> names[ent] < 0
        decreases |t| - Dist(|t|, Home(0, key, |t|), ent)
      {
        PassOn(t, Home(0, key, |t|), ent, e);
        ent := Masked(ent + 1);
        SlotIs(ent);
      }
    }

    lemma Shapes()
      requires Shape()
      ensures names.Length == nameLens.Length == hashTableSize
    {
    }

    /** addToHash. */
    method AddToHash(str: nat, strLen: nat)
      requires Valid() && Count(Slots()) < hashTableSize
      modifies `contents, names, nameLens
      ensures Valid() && contents == Added(old(contents), Name(cd, str, strLen), str)
      ensures Count(Slots()) == old(Count(Slots())) + 1
    {
      hide Hash, Holds, Home, Dist, Reached, Count, Name, Shape;
      Shapes();
      ghost var t := Slots();
      ghost var key := Name(cd, str, strLen);
      var hash := ComputeHash(Name(cd, str, strLen));
      var ent := FindEmpty(hash, key);
      AddHolds(0, t, contents, key, str, ent);
      CountAdd(t, ent, Full(key, str));
      contents := Added(contents, key, str);
      names[ent] := str;
      nameLens[ent] := strLen;
      assert Slots() == t[ent := Full(key, str)];
    }

    /** dexZipFindEntry: the first directory entry with the name, or none exactly if there is none. */
    method FindEntry(entryName: seq<u1>) returns (r: Option<nat>)
      requires Valid() && Count(Slots()) < hashTableSize
      ensures r.Some? <==> entryName in contents
      ensures r.Some? ==> r.value < hashTableSize == names.Length && names[r.value] == contents[entryName]
    {
      hide Hash, Holds, Home, Dist, Passed, Found, Count, Name, SlotAt, Slots;
      ghost var t := Slots();
      var hash := ComputeHash(entryName);
      var ent: nat := Masked(hash);
      HomeIs(entryName, hashTableSize);
      PassedHome(0, t, entryName);
      SomeEmpty(t);
      ghost var e :| 0 <= e < |t| && t[e].Empty?;
      SlotIs(ent);
      while names[ent] >= 0
        invariant 0 <= ent < hashTableSize && Passed(0, t, entryName, ent)
        invariant t[ent] == SlotAt(ent) && (t[ent].Empty? <==> names[ent] < 0)
        invariant names[ent] >= 0 ==> t[ent] == Full(Name(cd, names[ent], nameLens[ent]), names[ent])
        decreases |t| - Dist(|t|, Home(0, entryName, |t|), ent)
      {
        if nameLens[ent] == |entryName| && Name(cd, names[ent], |entryName|) == entryName {
          StopsAtKey(0, t, entryName, ent);
          Present(0, t, contents, entryName, ent);
          return Some(ent);
        }
        Differs(names[ent], nameLens[ent], entryName);
        PassKey(0, t, entryName, ent, e);
        ent := Masked(ent + 1);
        SlotIs(ent);
      }
      AbsentHere(t, contents, entryName, ent);
      r := None;
    }

    lemma Differs(ptr: nat, len: nat, name: seq<u1>)
      ensures Name(cd, ptr, len) == name <==> len == |name| && Name(cd, ptr, |name|) == name
    {
    }
  }

  lemma HomeIs(key: seq<u1>, n: nat)
    requires n > 0
    ensures Home(0, key, n) == Hash(0, key) % n
  {
    hide Hash;
  }

  lemma AbsentHere(t: seq<Slot>, m: map<seq<u1>, int>, key: seq<u1>, s: nat)
    requires Holds(0, t, m) && s < |t| && t[s].Empty? && Passed(0, t, key, s)
    ensures key !in m
  {
    hide Hash, Home, Dist, Holds;
    Absent(0, t, m, key, s);
  }

  /**
   parseZipArchive: it succeeds exactly if every directory entry passes, and then the table holds the
   first entry of every name. The number of entries is a 16-bit field, and zero has been refused.
   */
  method ParseZipArchive(cd: seq<u1>, numEntries: nat, directoryOffset: int, wide: bool)
      returns (archive: ZipArchive?)
    requires 0 < numEntries < 0x1_0000
    ensures archive != null <==> Directory(cd, 0, numEntries, directoryOffset, wide).Some?
    ensures archive != null ==>
      && fresh(archive) && archive.Valid() && archive.cd == cd
      && archive.contents == AddAll(cd, Directory(cd, 0, numEntries, directoryOffset, wide).value)
      && Count(archive.Slots()) == numEntries < archive.hashTableSize
  {
    hide Pow2, Holds, Count, Name, EntryOk, AfterEntry, Directory, AddAll, EntryAt;
    var size := RoundUpPower2(1 + numEntries * 4 / 3);
    var a := new ZipArchive(cd, size);
    var ptr: nat := 0;
    ghost var es: seq<Entry> := [];
    ghost var all := Directory(cd, 0, numEntries, directoryOffset, wide);
    NothingAdded(cd);
    for i := 0 to numEntries
      invariant fresh(a) && fresh(a.names) && fresh(a.nameLens) && a.Valid() && a.cd == cd && a.hashTableSize == size
      invariant Count(a.Slots()) == i && a.contents == AddAll(cd, es)
      invariant all.Some? <==> Directory(cd, ptr, numEntries - i, directoryOffset, wide).Some?
      invariant all.Some? ==> all.value == es + Directory(cd, ptr, numEntries - i, directoryOffset, wide).value
    {
      EntryIs(cd, ptr, directoryOffset, wide);
      DirectoryNext(cd, ptr, numEntries - i, directoryOffset, wide);
      if Get4LE(cd, ptr) != CDE_SIGNATURE {
        return null;
      }
      if ptr + CDE_LEN > |cd| {
        return null;
      }
      var localHdrOffset := LocalOffset(cd, ptr, wide);
      if localHdrOffset >= directoryOffset {
        return null;
      }
      var fileNameLen := Get2LE(cd, ptr + CDE_NAME_LEN);
      var extraLen := Get2LE(cd, ptr + CDE_EXTRA_LEN);
      var commentLen := Get2LE(cd, ptr + CDE_COMMENT_LEN);
      a.AddToHash(ptr + CDE_LEN, fileNameLen);
      AddNext(cd, es, EntryAt(cd, ptr));
      ghost var es' := es + [EntryAt(cd, ptr)];
      ptr := ptr + CDE_LEN + fileNameLen + extraLen + commentLen;
      if ptr > |cd| {
        return null;
      }
      es := es';
    }
    DirectoryEnds(cd, ptr, directoryOffset, wide);
    assert es + [] == es;
    archive := a;
  }

  lemma DirectoryNext(cd: seq<u1>, ptr: nat, n: nat, directoryOffset: int, wide: bool)
    requires 0 < n
    ensures !EntryOk(cd, ptr, directoryOffset, wide) ==> Directory(cd, ptr, n, directoryOffset, wide).None?
    ensures EntryOk(cd, ptr, directoryOffset, wide) ==>
        var rest := Directory(cd, AfterEntry(cd, ptr), n - 1, directoryOffset, wide);
        Directory(cd, ptr, n, directoryOffset, wide) ==
        if rest.None? then None else Some([EntryAt(cd, ptr)] + rest.value)
    ensures EntryAt(cd, ptr) == Entry(ptr + CDE_LEN, Get2LE(cd, ptr + CDE_NAME_LEN))
  {
    hide EntryOk, AfterEntry;
  }

  lemma DirectoryEnds(cd: seq<u1>, ptr: nat, directoryOffset: int, wide: bool)
    ensures Directory(cd, ptr, 0, directoryOffset, wide) == Some([])
  {
  }

  lemma AddNext(cd: seq<u1>, es: seq<Entry>, e: Entry)
    ensures AddAll(cd, es + [e]) == Added(AddAll(cd, es), Name(cd, e.ptr, e.len), e.ptr)
  {
    hide Added, Name;
    assert (es + [e])[..|es|] == es;
  }

  lemma NothingAdded(cd: seq<u1>)
    ensures AddAll(cd, []) == map[]
  {
  }

  lemma EntryIs(cd: seq<u1>, ptr: nat, directoryOffset: int, wide: bool)
    ensures EntryOk(cd, ptr, directoryOffset, wide) <==>
      && Get4LE(cd, ptr) == CDE_SIGNATURE
      && ptr + CDE_LEN <= |cd|
      && LocalOffset(cd, ptr, wide) < directoryOffset
      && AfterEntry(cd, ptr) <= |cd|
    ensures AfterEntry(cd, ptr) ==
      ptr + CDE_LEN + Get2LE(cd, ptr + CDE_NAME_LEN) + Get2LE(cd, ptr + CDE_EXTRA_LEN) + Get2LE(cd,
          ptr + CDE_COMMENT_LEN)
  {
  }
}
