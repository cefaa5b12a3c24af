/**
 The data map of the DEX verifier: libdex/DexDataMap.cpp, and the passes of DexSwapVerify.cpp that size
 and fill it. Which items are where in the data section is all that later passes know about a file.
 */
module DexDataMap {
  import opened Options

  /** One top-level item: its file offset and its map type. */
  datatype Item = Item(offset: nat, kind: int)

  ghost predicate Ascending(items: seq<Item>) {
    forall i, j | 0 <= i < j < |items| :: items[i].offset < items[j].offset
  }

  lemma AscendingAppend(items: seq<Item>, next: Item)
    requires Ascending(items) && (items != [] ==> items[|items| - 1].offset < next.offset)
    ensures Ascending(items + [next])
  {
  }

  class DataMap {
    var count: nat
    const max: nat
    const offsets: array<nat>
    const types: array<int>

    ghost predicate Valid()
      reads this, offsets, types
    {
      && offsets.Length == types.Length == max && count <= max
      && Ascending(Contents())
    }

    ghost function Contents(): (items: seq<Item>)
      requires offsets.Length == types.Length == max && count <= max
      reads this, offsets, types
      ensures |items| == count
    {
      seq(count, i requires 0 <= i < count <= max == offsets.Length == types.Length reads this, offsets, types =>
        Item(offsets[i], types[i]))
    }

    /** dexDataMapAlloc. */
    constructor (maxCount: nat)
      ensures Valid() && Contents() == [] && max == maxCount && fresh(offsets) && fresh(types)
    {
      count := 0;
      max := maxCount;
      offsets := new nat[maxCount](_ => 0);
      types := new int[maxCount](_ => 0);
    }

    /** dexDataMapAdd: an offset that is not beyond the last one is dropped. */
    method Add(offset: nat, kind: int)
      requires Valid() && count < max
      modifies `count, offsets, types
      ensures Valid()
      ensures Contents() ==
        if old(Contents()) == [] || old(Contents())[old(count) - 1].offset < offset
            then old(Contents()) + [Item(offset, kind)]
        else old(Contents())
    {
      ghost var was := Contents();
      if count != 0 && offsets[count - 1] >= offset {
        return;
      }
      offsets[count] := offset;
      types[count] := kind;
      count := count + 1;
      assert Contents() == was + [Item(offset, kind)];
      AscendingAppend(was, Item(offset, kind));
    }

    /** dexDataMapGet: the type of the item at an offset, or -1. */
    method Get(offset: nat) returns (kind: int)
      requires Valid()
      ensures (exists i :: 0 <= i < count && Contents()[i] == Item(offset, kind))
        || (kind == -1 && forall i | 0 <= i < count :: Contents()[i].offset != offset)
    {
      var min: int, last: int := 0, count - 1;
      ghost var items := Contents();
      while last >= min
        invariant 0 <= min <= count && -1 <= last < count
        invariant forall i | 0 <= i < min :: items[i].offset < offset
        invariant forall i | last < i < count :: offset < items[i].offset
      {
        var guessIdx := (min + last) / 2;
        var guess := offsets[guessIdx];
        assert items[guessIdx].offset == guess;
        if offset < guess {
          last := guessIdx - 1;
        } else if offset > guess {
          min := guessIdx + 1;
        } else {
          assert items[guessIdx] == Item(offset, types[guessIdx]);
          return types[guessIdx];
        }
      }
      kind := -1;
    }

    /** dexDataMapVerify: is the item at the offset of this type? */
    method Verify(offset: nat, kind: nat) returns (ok: bool)
      requires Valid()
      ensures ok <==> Item(offset, kind) in Contents()
    {
      var found := Get(offset);
      ok := found == kind;
    }
  }

  /* ---- the map list ---- */

  const HEADER := 0x0000
  const STRING_ID := 0x0001
  const PROTO_ID := 0x0003
  const CLASS_DEF := 0x0006
  const MAP_LIST := 0x1000
  const TYPE_LIST := 0x1001
  const ANNOTATION_SET_ITEM := 0x1003
  const CLASS_DATA_ITEM := 0x2000
  const STRING_DATA_ITEM := 0x2002
  const ENCODED_ARRAY_ITEM := 0x2005
  const ANNOTATIONS_DIRECTORY_ITEM := 0x2006

  datatype MapItem = MapItem(kind: int, size: nat, offset: nat)

  /** The header fields that the passes look at. */
  datatype Header = Header(fileSize: nat, headerSize: nat, mapOff: nat, dataOff: nat, dataSize: nat, ids: map<int,
      (nat, nat)>)

  /** A file, and what it takes to walk it: where an item of a type that begins at an offset ends, if it passes. */
  datatype File = File(bytes: seq<int>, header: Header, mapSize: nat, visit: (int, nat) -> Option<nat>)

  predicate IsIdSection(kind: int) {
    STRING_ID <= kind <= CLASS_DEF
  }

  /** isDataSectionType. */
  predicate IsDataSection(kind: int) {
    kind != HEADER && !IsIdSection(kind)
  }

  /** The types whose items enter the data map. */
  predicate IsMapped(kind: int) {
    TYPE_LIST <= kind <= ANNOTATION_SET_ITEM || CLASS_DATA_ITEM <= kind <= ANNOTATIONS_DIRECTORY_ITEM
  }

  predicate IsKnown(kind: int) {
    kind == HEADER || IsIdSection(kind) || kind == MAP_LIST || IsMapped(kind)
  }

  function Alignment(kind: int): (a: nat)
    ensures a == 1 || a == 4
  {
    if kind == CLASS_DATA_ITEM || (STRING_DATA_ITEM <= kind <= ENCODED_ARRAY_ITEM) then 1 else 4
  }

  /** `(offset + mask) & ~mask`. */
  function Aligned(offset: nat, alignment: nat): (a: nat)
    requires alignment == 1 || alignment == 4
    ensures offset <= a < offset + 4
  {
    (offset + alignment - 1) / alignment * alignment
  }

  /** Bytes between items or sections must be there and be zero. */
  predicate Padding(f: File, from: nat, to: nat) {
    from <= to && (from < to ==> to <= |f.bytes| && forall i | from <= i < to :: f.bytes[i] == 0)
  }

  /** Items take up space. This is so for every visitor: each reads at least one byte. */
  ghost predicate Proper(f: File) {
    && f.header.dataOff + f.header.dataSize <= |f.bytes|
    && forall kind, offset: nat :: f.visit(kind, offset).Some? ==> f.visit(kind, offset).value > offset
  }

  datatype Walk = Walk(items: seq<Item>, end: nat)

  /** n items of a section that begin at `offset` or behind the padding there. */
  function Items(f: File, kind: int, offset: nat, n: nat): Option<Walk>
    decreases n
  {
    if n == 0 then Some(Walk([], offset))
    else
      var at := Aligned(offset, Alignment(kind));
      if !Padding(f, offset, at) then None
      else
        match f.visit(kind, at)
        case None => None
        case Some(end) =>
          if end > |f.bytes| then None
          else
            match Items(f, kind, end, n - 1)
            case None => None
            case Some(rest) => Some(Walk([Item(at, kind)] + rest.items, rest.end))
  }

  /** Items follow each other. */
  lemma {:induction false} ItemsAscend(f: File, kind: int, offset: nat, n: nat)
    requires Proper(f) && Items(f, kind, offset, n).Some?
    ensures var w := Items(f, kind, offset, n).value;
      && |w.items| == n && offset <= w.end && Ascending(w.items)
      && forall i | 0 <= i < n :: offset <= w.items[i].offset < w.end && w.items[i].kind == kind
    decreases n
  {
    if n != 0 {
      hide Padding, Alignment;
      var at := Aligned(offset, Alignment(kind));
      var end := f.visit(kind, at).value;
      ItemsAscend(f, kind, end, n - 1);
    }
  }

  /** checkMapSection: behind the map list, of 12 bytes an entry. */
  function MapEnd(f: File, offset: nat): nat {
    offset + 4 + f.mapSize * 12
  }

  /** What one section of the map list holds, if it passes. */
  function Section(f: File, item: MapItem): Option<Walk> {
    var h := f.header;
    if item.kind == HEADER then
      if item.size == 1 && item.offset == 0 then Some(Walk([], h.headerSize)) else None
    else if item.kind == MAP_LIST then
      if item.size == 1 && item.offset == h.mapOff then Some(Walk([], MapEnd(f, item.offset))) else None
    else if IsIdSection(item.kind) then
      if item.kind in h.ids && (item.offset, item.size) == h.ids[item.kind] then
        match Items(f, item.kind, item.offset, item.size)
        case None => None
        case Some(w) => Some(Walk([], w.end))
      else None
    else if IsMapped(item.kind) then
      if h.dataOff <= item.offset < h.dataOff + h.dataSize then
        match Items(f, item.kind, item.offset, item.size)
        case None => None
        case Some(w) => if w.end <= h.dataOff + h.dataSize then Some(w) else None
      else None
    else None
  }

  /** The items of all sections from the k-th on, the one before having ended at `last`. */
  function Sections(f: File, list: seq<MapItem>, last: nat): Option<seq<Item>> {
    if list == [] then Some([])
    else if !Padding(f, last, list[0].offset) then None
    else
      match Section(f, list[0])
      case None => None
      case Some(w) =>
        match Sections(f, list[1..], w.end)
        case None => None
        case Some(rest) => Some(w.items + rest)
  }

  /** Items counted by swapMap: those of all data sections, the map list among them. */
  function DataCount(list: seq<MapItem>): nat {
    if list == [] then 0 else DataCount(list[..|list| - 1]) + DataSize(list[|list| - 1])
  }

  function DataSize(item: MapItem): nat {
    if IsDataSection(item.kind) then item.size else 0
  }

  lemma CountNext(list: seq<MapItem>, k: nat)
    requires k < |list|
    ensures DataCount(list[..k + 1]) == DataCount(list[..k]) + DataSize(list[k])
  {
    assert list[..k + 1][..k] == list[..k];
  }

  /** What swapMap asks of entry k. */
  predicate EntryOk(f: File, list: seq<MapItem>, k: nat)
    requires k < |list|
  {
    && (k > 0 ==> list[k - 1].offset < list[k].offset)
    && list[k].offset < f.header.fileSize
    && IsKnown(list[k].kind)
    && (forall j | 0 <= j < k :: list[j].kind != list[k].kind)
    && DataCount(list[..k + 1]) <= f.header.dataSize
  }

  predicate Has(list: seq<MapItem>, kind: int) {
    exists i :: 0 <= i < |list| && list[i].kind == kind
  }

  predicate MapOk(f: File, list: seq<MapItem>) {
    && (forall k | 0 <= k < |list| :: EntryOk(f, list, k))
    && Has(list, HEADER) && Has(list, MAP_LIST)
    && forall kind | STRING_ID <= kind <= CLASS_DEF :: Has(list, kind) || Unused(f, kind)
  }

  /** The header says that there are no ids of this type. */
  predicate Unused(f: File, kind: int) {
    kind !in f.header.ids || f.header.ids[kind] == (0, 0)
  }

  /** swapMap: a data map of the right size, if the map list passes. */
  method SwapMap(f: File, list: seq<MapItem>) returns (dm: DataMap?)
    ensures dm != null <==> MapOk(f, list)
    ensures dm != null ==>
        fresh(dm) && fresh(dm.offsets) && fresh(dm.types) && dm.Valid() && dm.Contents() == [] &&
        dm.max == DataCount(list)
  {
    var dataItemCount := 0;
    var dataItemsLeft := f.header.dataSize;
    var used: set<int> := {};
    for k := 0 to |list|
      invariant forall j | 0 <= j < k :: EntryOk(f, list, j)
      invariant used == set j | 0 <= j < k :: list[j].kind
      invariant dataItemCount == DataCount(list[..k]) && dataItemCount + dataItemsLeft == f.header.dataSize &&
          dataItemsLeft >= 0
    {
      var item := list[k];
      CountNext(list, k);
      if k > 0 && list[k - 1].offset >= item.offset {
        assert !EntryOk(f, list, k);
        return null;
      }
      if item.offset >= f.header.fileSize {
        assert !EntryOk(f, list, k);
        return null;
      }
      if IsDataSection(item.kind) {
        if item.size > dataItemsLeft {
          assert !EntryOk(f, list, k);
          return null;
        }
        dataItemsLeft := dataItemsLeft - item.size;
        dataItemCount := dataItemCount + item.size;
      }
      if !IsKnown(item.kind) {
        assert !EntryOk(f, list, k);
        return null;
      }
      if item.kind in used {
        assert !EntryOk(f, list, k);
        return null;
      }
      assert forall j | 0 <= j < k :: list[j].kind in used;
      assert EntryOk(f, list, k);
      used := used + {item.kind};
    }
    assert list[..|list|] == list;
    forall kind
      ensures kind in used <==> Has(list, kind)
    {
    }
    if HEADER !in used || MAP_LIST !in used {
      return null;
    }
    for kind := STRING_ID to PROTO_ID + 4
      invariant forall j | STRING_ID <= j < kind :: Has(list, j) || Unused(f, j)
    {
      if kind !in used && !Unused(f, kind) {
        return null;
      }
    }
    dm := new DataMap(dataItemCount);
  }

  /** The padding before an item or a section. */
  method SkipPadding(f: File, offset: nat, to: nat) returns (ok: bool)
    requires offset <= to
    ensures ok <==> Padding(f, offset, to)
  {
    if offset < to {
      if to > |f.bytes| {
        return false;
      }
      var ptr := offset;
      while ptr < to
        invariant offset <= ptr <= to && forall k | offset <= k < ptr :: f.bytes[k] == 0
      {
        if f.bytes[ptr] != 0 {
          return false;
        }
        ptr := ptr + 1;
      }
    }
    ok := true;
  }

  /** Items, one at a time. */
  lemma ItemsStep(f: File, kind: int, offset: nat, n: nat)
    requires n > 0
    ensures var at := Aligned(offset, Alignment(kind));
      if Padding(f, offset, at) && f.visit(kind, at).Some? && f.visit(kind, at).value <= |f.bytes| then
        var rest := Items(f, kind, f.visit(kind, at).value, n - 1);
        if rest.Some? then Items(f, kind, offset, n) == Some(Walk([Item(at, kind)] + rest.value.items, rest.value.end))
        else Items(f, kind, offset, n) == None
      else Items(f, kind, offset, n) == None
  {
  }

  /** Where an iteration over a section stands. */
  ghost predicate Underway(f: File, kind: int, start: nat, count: nat, offset: nat, done: seq<Item>)
    requires |done| <= count
  {
    var all, rest := Items(f, kind, start, count), Items(f, kind, offset, count - |done|);
    (all.Some? <==> rest.Some?) &&
    (all.Some? ==> all.value.end == rest.value.end && all.value.items == done + rest.value.items)
  }

  lemma UnderwayStep(f: File, kind: int, start: nat, count: nat, offset: nat, done: seq<Item>)
    requires |done| < count && Underway(f, kind, start, count, offset, done)
    ensures var at := Aligned(offset, Alignment(kind));
      if Padding(f, offset, at) && f.visit(kind, at).Some? && f.visit(kind, at).value <= |f.bytes| then
        Underway(f, kind, start, count, f.visit(kind, at).value, done + [Item(at, kind)])
      else Items(f, kind, start, count) == None
  {
    hide Padding, Aligned;
    ItemsStep(f, kind, offset, count - |done|);
    var at := Aligned(offset, Alignment(kind));
    if Padding(f, offset, at) && f.visit(kind, at).Some? {
      var rest := Items(f, kind, f.visit(kind, at).value, count - |done| - 1);
      if rest.Some? {
        assert done + ([Item(at, kind)] + rest.value.items) == (done + [Item(at, kind)]) + rest.value.items;
      }
    }
  }

  /** iterateSectionWithOptionalUpdate. */
  method IterateSection(f: File, kind: int, start: nat, count: nat, dm: DataMap, mapped: bool)
      returns (ok: bool, offset: nat)
    requires Proper(f) && dm.Valid() && (mapped ==> dm.count + count <= dm.max)
    requires dm.count > 0 ==> dm.Contents()[dm.count - 1].offset < start
    modifies dm`count, dm.offsets, dm.types
    ensures dm.Valid()
    ensures ok <==> Items(f, kind, start, count).Some?
    ensures ok ==> offset == Items(f, kind, start, count).value.end
    ensures ok ==> dm.Contents() == old(dm.Contents()) + if mapped then Items(f, kind, start, count).value.items else []
  {
    hide Items, Padding, Ascending;
    offset := start;
    ghost var done: seq<Item> := [];
    UnderwayHere(f, kind, start, count);
    for i := 0 to count
      invariant dm.Valid() && start <= offset && |done| == i
      invariant dm.count > 0 ==> dm.Contents()[dm.count - 1].offset < offset
      invariant Underway(f, kind, start, count, offset, done)
      invariant dm.Contents() == old(dm.Contents()) + if mapped then done else []
    {
      hide Underway;
      UnderwayStep(f, kind, start, count, offset, done);
      var at := Aligned(offset, Alignment(kind));
      var padded := SkipPadding(f, offset, at);
      if !padded {
        return false, offset;
      }
      var newPtr := f.visit(kind, at);
      if newPtr.None? {
        return false, offset;
      }
      if newPtr.value > |f.bytes| {
        return false, offset;
      }
      if mapped {
        dm.Add(at, kind);
      }
      done := done + [Item(at, kind)];
      offset := newPtr.value;
    }
    UnderwayEnd(f, kind, start, count, offset, done);
    ok := true;
  }

  lemma UnderwayHere(f: File, kind: int, start: nat, count: nat)
    ensures Underway(f, kind, start, count, start, [])
  {
  }

  lemma UnderwayEnd(f: File, kind: int, start: nat, count: nat, offset: nat, done: seq<Item>)
    requires |done| == count && Underway(f, kind, start, count, offset, done)
    ensures Items(f, kind, start, count) == Some(Walk(done, offset))
  {
    assert Items(f, kind, offset, 0) == Some(Walk([], offset));
    assert done + [] == done;
  }

  /** The part of swapEverythingButHeaderAndMap that handles one section. */
  method SwapSection(f: File, item: MapItem, dm: DataMap) returns (okay: bool, lastOffset: nat)
    requires Proper(f) && dm.Valid() && IsKnown(item.kind) && dm.count + DataSize(item) <= dm.max
    requires dm.count > 0 ==> dm.Contents()[dm.count - 1].offset < item.offset
    modifies dm`count, dm.offsets, dm.types
    ensures dm.Valid()
    ensures okay <==> Section(f, item).Some?
    ensures okay ==>
        lastOffset == Section(f, item).value.end &&
        dm.Contents() == old(dm.Contents()) + Section(f, item).value.items
  {
    hide Items, Padding, Ascending;
    var h := f.header;
    lastOffset := 0;
    if item.kind == HEADER {
      okay := item.size == 1 && item.offset == 0;
      lastOffset := h.headerSize;
    } else if item.kind == MAP_LIST {
      okay := item.size == 1 && item.offset == h.mapOff;
      lastOffset := MapEnd(f, item.offset);
    } else if IsIdSection(item.kind) {
      okay := item.kind in h.ids && item.offset == h.ids[item.kind].0 && item.size == h.ids[item.kind].1;
      if okay {
        okay, lastOffset := IterateSection(f, item.kind, item.offset, item.size, dm, false);
      }
    } else {
      var dataStart := h.dataOff;
      var dataEnd := dataStart + h.dataSize;
      if item.offset < dataStart || item.offset >= dataEnd {
        return false, 0;
      }
      okay, lastOffset := IterateSection(f, item.kind, item.offset, item.size, dm, true);
      if okay && lastOffset > dataEnd {
        okay := false;
      }
    }
  }

  /** Where the pass over the sections stands: `done` are the items visited. */
  ghost predicate Reached(f: File, list: seq<MapItem>, k: nat, last: nat, done: seq<Item>)
    requires k <= |list|
  {
    var all, rest := Sections(f, list, 0), Sections(f, list[k..], last);
    && (all.Some? <==> rest.Some?)
    && (all.Some? ==> all.value == done + rest.value)
  }

  lemma ReachedStep(f: File, list: seq<MapItem>, k: nat, last: nat, done: seq<Item>)
    requires k < |list| && Reached(f, list, k, last, done)
    ensures if Padding(f, last, list[k].offset) && Section(f, list[k]).Some? then
        Reached(f, list, k + 1, Section(f, list[k]).value.end, done + Section(f, list[k]).value.items)
      else Sections(f, list, 0) == None
  {
    hide Padding, Section;
    assert list[k..][0] == list[k] && list[k..][1..] == list[k + 1..];
    if Padding(f, last, list[k].offset) && Section(f, list[k]).Some? {
      var w := Section(f, list[k]).value;
      var rest := Sections(f, list[k + 1..], w.end);
      if rest.Some? {
        assert done + (w.items + rest.value) == (done + w.items) + rest.value;
      }
    }
  }

  /** The items of a section lie inside it; those of a data section are as many as the map list says. */
  lemma SectionIs(f: File, item: MapItem)
    requires Proper(f) && Section(f, item).Some?
    ensures var w := Section(f, item).value;
      item.offset <= w.end && |w.items| <= DataSize(item) && forall i | 0 <= i < |w.items| ::
          item.offset <= w.items[i].offset < w.end
  {
    if item.kind != HEADER && item.kind != MAP_LIST && Items(f, item.kind, item.offset, item.size).Some? {
      ItemsAscend(f, item.kind, item.offset, item.size);
    }
    hide Items;
  }

  /**
   swapEverythingButHeaderAndMap: it succeeds exactly if every section passes, and then the data map
   holds every item visited, each with its type, in order; no addition is dropped or one too many.
   */
  method SwapEverything(f: File, list: seq<MapItem>, dm: DataMap) returns (okay: bool)
    requires Proper(f) && MapOk(f, list) && dm.Valid() && dm.Contents() == [] && dm.max == DataCount(list)
    modifies dm`count, dm.offsets, dm.types
    ensures dm.Valid()
    ensures okay <==> Sections(f, list, 0).Some?
    ensures okay ==> dm.Contents() == Sections(f, list, 0).value
  {
    hide Section, Sections, Padding, Ascending;
    var lastOffset: nat := 0;
    ghost var done: seq<Item> := [];
    ReachedHere(f, list);
    for k := 0 to |list|
      invariant dm.Valid() && dm.Contents() == done && |done| <= DataCount(list[..k])
      invariant dm.count > 0 ==> dm.Contents()[dm.count - 1].offset < lastOffset
      invariant Reached(f, list, k, lastOffset, done)
    {
      hide Reached;
      var item := list[k];
      ReachedStep(f, list, k, lastOffset, done);
      assert EntryOk(f, list, k);
      CountNext(list, k);
      CountGrows(list, k + 1);
      if lastOffset > item.offset {
        Overlap(f, lastOffset, item.offset);
        return false;
      }
      var padded := SkipPadding(f, lastOffset, item.offset);
      if !padded {
        return false;
      }
      var ok;
      ok, lastOffset := SwapSection(f, item, dm);
      if !ok {
        return false;
      }
      SectionIs(f, item);
      done := done + Section(f, item).value.items;
    }
    ReachedEnd(f, list, lastOffset, done);
    okay := true;
  }

  lemma Overlap(f: File, from: nat, to: nat)
    requires from > to
    ensures !Padding(f, from, to)
  {
  }

  lemma ReachedHere(f: File, list: seq<MapItem>)
    ensures Reached(f, list, 0, 0, [])
  {
    assert list[0..] == list;
  }

  lemma ReachedEnd(f: File, list: seq<MapItem>, last: nat, done: seq<Item>)
    requires Reached(f, list, |list|, last, done)
    ensures Sections(f, list, 0) == Some(done)
  {
    assert Sections(f, list[|list|..], last) == Some([]);
    assert done + [] == done;
  }

  lemma {:induction false} CountGrows(list: seq<MapItem>, k: nat)
    requires k <= |list|
    ensures DataCount(list[..k]) <= DataCount(list)
    decreases |list| - k
  {
    if k < |list| {
      CountNext(list, k);
      CountGrows(list, k + 1);
    } else {
      assert list[..k] == list;
    }
  }

  /**
   The data map of a file whose map list and sections pass. For every offset it gives t exactly if an item
   of the data type t has been visited there, and -1 if none has.
   */
  method BuildDataMap(f: File, list: seq<MapItem>) returns (dm: DataMap?)
    requires Proper(f)
    ensures dm != null <==> MapOk(f, list) && Sections(f, list, 0).Some?
    ensures dm != null ==> dm.Valid() && dm.Contents() == Sections(f, list, 0).value
  {
    hide MapOk, Sections, Ascending;
    dm := SwapMap(f, list);
    if dm == null {
      return;
    }
    var okay := SwapEverything(f, list, dm);
    if !okay {
      dm := null;
    }
  }
}
