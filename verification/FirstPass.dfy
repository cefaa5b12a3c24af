/**
 What the first pass over a file leaves to the cross-verification: the data map of DexDataMap, filled by
 the visitors of string data and of type lists (DexSwapVerify.cpp), makes the tables of DexIds truthful.
 */
module FirstPass {
  import opened Leb128
  import opened Mutf8
  import opened Options
  import opened DexDataMap
  import opened DexIds

  /* ---- type lists ---- */

  function U2At(file: seq<u1>, pos: nat): u2 {
    At(file, pos) + At(file, pos + 1) * 0x100
  }

  function U4At(file: seq<u1>, pos: nat): u4 {
    U2At(file, pos) + U2At(file, pos + 2) * 0x1_0000
  }

  /** n indices of two bytes from pos on. */
  function Indices(file: seq<u1>, pos: nat, n: nat): (r: seq<nat>)
    ensures |r| == n
  {
    seq(n, k requires 0 <= k < n => U2At(file, pos + 2 * k) as nat)
  }

  function TypeListAt(file: seq<u1>, offset: nat): seq<nat> {
    Indices(file, offset + 4, U4At(file, offset))
  }

  function TypeListEnd(file: seq<u1>, offset: nat): nat {
    offset + 4 + 2 * U4At(file, offset)
  }

  /** The structure with its first entry takes eight bytes, even if there are no entries. */
  predicate TypeListOk(file: seq<u1>, offset: nat, typeIds: nat) {
    && offset + 8 <= |file| && TypeListEnd(file, offset) <= |file|
    && forall k | 0 <= k < U4At(file, offset) :: IndexOk(file, offset, k, typeIds)
  }

  predicate IndexOk(file: seq<u1>, offset: nat, k: nat, typeIds: nat) {
    U2At(file, offset + 4 + 2 * k) < typeIds
  }

  /** swapTypeList: null, or the end of the list. */
  method SwapTypeList(file: seq<u1>, offset: nat, typeIds: nat) returns (end: Option<nat>)
    ensures end == if TypeListOk(file, offset, typeIds) then Some(TypeListEnd(file, offset)) else None
  {
    hide At, U2At;
    if offset + 8 > |file| {
      return None;
    }
    var count := U4At(file, offset);
    var pType := offset + 4;
    if pType + 2 * count > |file| {
      return None;
    }
    for k := 0 to count
      invariant pType == offset + 4 + 2 * k && forall j | 0 <= j < k :: IndexOk(file, offset, j, typeIds)
    {
      if U2At(file, pType) >= typeIds {
        assert !IndexOk(file, offset, k, typeIds);
        return None;
      }
      pType := pType + 2;
    }
    end := Some(pType);
  }

  lemma ListFits(dex: Dex, offset: nat)
    requires TypeListOk(dex.bytes, offset, |dex.types|)
    ensures ListOk(dex, TypeListAt(dex.bytes, offset))
  {
    var list := TypeListAt(dex.bytes, offset);
    forall k | 0 <= k < |list| ensures list[k] < |dex.types| {
      assert IndexOk(dex.bytes, offset, k, |dex.types|);
    }
  }

  /* ---- the data map ---- */

  ghost predicate Passed(f: File, item: Item) {
    f.visit(item.kind, item.offset).Some? && f.visit(item.kind, item.offset).value <= |f.bytes|
  }

  lemma {:induction false} ItemsPassed(f: File, kind: int, offset: nat, n: nat)
    requires Items(f, kind, offset, n).Some?
    ensures forall i | 0 <= i < |Items(f, kind, offset, n).value.items| ::
        Passed(f, Items(f, kind, offset, n).value.items[i])
    decreases n
  {
    if n != 0 {
      hide Padding, Alignment, Aligned;
      var at := Aligned(offset, Alignment(kind));
      ItemsPassed(f, kind, f.visit(kind, at).value, n - 1);
      assert Passed(f, Item(at, kind));
    }
  }

  /** Whatever is in the data map has passed its visitor, and ends inside the file. */
  lemma {:induction false} AllPassed(f: File, list: seq<MapItem>, last: nat)
    requires Sections(f, list, last).Some?
    ensures forall i | 0 <= i < |Sections(f, list, last).value| :: Passed(f, Sections(f, list, last).value[i])
    decreases |list|
  {
    if list != [] {
      hide Items, Padding, Passed;
      var w := Section(f, list[0]).value;
      SectionPassed(f, list[0]);
      AllPassed(f, list[1..], w.end);
    }
  }

  lemma SectionPassed(f: File, item: MapItem)
    requires Section(f, item).Some?
    ensures forall i | 0 <= i < |Section(f, item).value.items| :: Passed(f, Section(f, item).value.items[i])
  {
    hide Items, Passed;
    if item.kind != HEADER && item.kind != MAP_LIST {
      ItemsPassed(f, item.kind, item.offset, item.size);
    }
  }

  /** The visitors, as VerifyStringData and SwapTypeList are proved to be. */
  ghost predicate Visitors(f: File, dex: Dex) {
    && (forall offset: nat :: f.visit(STRING_DATA_ITEM, offset).Some? ==>
         exists us: seq<u2> ::
            StringData(dex.bytes, offset, us) &&
            f.visit(STRING_DATA_ITEM, offset).value == StringEnd(dex.bytes, offset, us))
    && forall offset: nat :: f.visit(TYPE_LIST, offset).Some? ==> TypeListOk(dex.bytes, offset, |dex.types|)
  }

  /** The tables of a file, with what the data map holds after the first pass. */
  ghost predicate Tables(f: File, dex: Dex, items: seq<Item>) {
    && dex.bytes == f.bytes
    && (forall offset :: offset in dex.stringData <==> Item(offset, STRING_DATA_ITEM) in items)
    && (forall offset :: offset in dex.typeLists <==> Item(offset, TYPE_LIST) in items)
    && forall offset | offset in dex.typeLists :: dex.typeLists[offset] == TypeListAt(dex.bytes, offset)
  }

  /** The cross-verification may rely on what the first pass has put into the data map. */
  lemma LoadedByFirstPass(f: File, list: seq<MapItem>, dex: Dex)
    requires Sections(f, list, 0).Some? && Visitors(f, dex) && Tables(f, dex, Sections(f, list, 0).value)
    requires forall i | 0 <= i < |dex.types| :: dex.types[i] < |dex.strings|
    requires forall i | 0 <= i < |dex.protos| :: IndicesOk(dex, dex.protos[i])
    ensures Loaded(dex)
  {
    hide Sections, StringData, TypeListOk, TypeListAt;
    AllPassed(f, list, 0);
    var items := Sections(f, list, 0).value;
    forall offset | offset in dex.stringData ensures IsStringData(dex, offset) {
      var i :| 0 <= i < |items| && items[i] == Item(offset, STRING_DATA_ITEM);
      assert Passed(f, items[i]);
    }
    forall offset | offset in dex.typeLists ensures ListOk(dex, dex.typeLists[offset]) {
      var i :| 0 <= i < |items| && items[i] == Item(offset, TYPE_LIST);
      assert Passed(f, items[i]);
      ListFits(dex, offset);
    }
  }
}
