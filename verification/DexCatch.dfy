/**
 Try blocks and catch handlers of a code item: libdex/DexCatch.cpp and DexCatch.h, which read them
 without checks, swapTriesAndCatches of DexSwapVerify.cpp, which checks them beforehand, and
 dexGetDexCodeSize of DexFile.cpp.
 */
module DexCatch {
  import opened Leb128
  import opened Options

  const NO_INDEX: u4 := 0xFFFF_FFFF
  const MAX_FILE: nat := 0x1_0000_0000

  datatype Try = Try(startAddr: u4, insnCount: u2, handlerOff: u2)

  /** A code item at file offset `off`, its header and try items decoded. Offsets are aligned like addresses. */
  datatype Code = Code(off: nat, insnsSize: u4, tries: seq<Try>)

  /** One clause of a handler; NO_INDEX stands for catch-all. */
  datatype Catch = Catch(typeIdx: u4, address: u4)

  datatype Parsed = Parsed(catches: seq<Catch>, next: nat)

  function InsnsEnd(code: Code): nat {
    code.off + 16 + 2 * code.insnsSize
  }

  /** dexGetTries. */
  function TriesOff(code: Code): nat {
    if InsnsEnd(code) % 4 != 0 then InsnsEnd(code) + 2 else InsnsEnd(code)
  }

  /** dexGetCatchHandlerData. */
  function HandlerData(code: Code): nat {
    TriesOff(code) + 8 * |code.tries|
  }

  /** n pairs of type index and address. */
  function Pairs(file: seq<u1>, pos: nat, n: nat): Parsed
    decreases n
  {
    if n == 0 then Parsed([], pos)
    else
      var p := Next(file, pos);
      var rest := Pairs(file, Next(file, p), n - 1);
      Parsed([Catch(Unsigned(file, pos), Unsigned(file, p))] + rest.catches, rest.next)
  }

  /** A catch_handler_item: a count, that many pairs, and a catch-all address if the count is not positive. */
  function Handler(file: seq<u1>, pos: nat): Parsed {
    var size := Signed(file, pos);
    var all := Pairs(file, Next(file, pos), if size < 0 then -size else size);
    WithCatchAll(file, all, size <= 0)
  }

  function WithCatchAll(file: seq<u1>, all: Parsed, catchAll: bool): Parsed {
    if catchAll then Parsed(all.catches + [Catch(NO_INDEX, Unsigned(file, all.next))], Next(file, all.next))
    else all
  }

  /* ---- the readers ---- */

  class DexCatchIterator {
    const file: seq<u1>
    var pEncodedData: nat
    var catchesAll: bool
    var countRemaining: nat
    var handler: Catch

    /** What the iterator has still to yield, and where it will end up. */
    ghost function Rest(): Parsed
      reads this
    {
      WithCatchAll(file, Pairs(file, pEncodedData, countRemaining), catchesAll)
    }

    /** dexCatchIteratorInitToPointer. */
    constructor (file: seq<u1>, pos: nat)
      ensures this.file == file && Rest() == Handler(file, pos)
    {
      this.file := file;
      var count, ptr := ReadSigned(file, pos);
      if count <= 0 {
        catchesAll := true;
        count := -count;
      } else {
        catchesAll := false;
      }
      pEncodedData := ptr;
      countRemaining := count;
      handler := Catch(0, 0);
    }

    /** dexCatchIteratorNext. */
    method Next() returns (next: Option<Catch>)
      modifies this
      ensures if old(Rest()).catches == [] then next == None && Rest() == old(Rest())
        else next == Some(old(Rest()).catches[0]) && Rest() == Parsed(old(Rest()).catches[1..], old(Rest()).next)
    {
      hide Unsigned, Leb128.Next, Size;
      var typeIdx;
      if countRemaining == 0 {
        if !catchesAll {
          return None;
        }
        catchesAll := false;
        typeIdx := NO_INDEX;
      } else {
        typeIdx, pEncodedData := ReadUnsigned(file, pEncodedData);
        countRemaining := countRemaining - 1;
      }
      var address;
      address, pEncodedData := ReadUnsigned(file, pEncodedData);
      handler := Catch(typeIdx, address);
      next := Some(handler);
    }

    /** dexCatchIteratorGetEndOffset. */
    method GetEndOffset(base: nat) returns (offset: int)
      modifies this
      ensures offset == old(Rest()).next - base
    {
      var next := Next();
      while next != None
        invariant Rest().next == old(Rest()).next
        invariant next == None ==> Rest().catches == []
        decreases |Rest().catches| + if next == None then 0 else 1
      {
        next := Next();
      }
      offset := pEncodedData - base;
    }
  }

  /** dexGetFirstHandlerOffset and dexGetHandlersSize. */
  method GetFirstHandlerOffset(file: seq<u1>, code: Code) returns (offset: nat)
    ensures offset == FirstOffset(file, code)
  {
    if code.tries == [] {
      return 0;
    }
    var size, ptr := ReadUnsigned(file, HandlerData(code));
    offset := ptr - HandlerData(code);
  }

  method GetHandlersSize(file: seq<u1>, code: Code) returns (size: nat)
    ensures size == HandlersSize(file, code)
  {
    if code.tries == [] {
      return 0;
    }
    var ptr;
    size, ptr := ReadUnsigned(file, HandlerData(code));
  }

  function FirstOffset(file: seq<u1>, code: Code): nat {
    if code.tries == [] then 0 else Size(file, HandlerData(code))
  }

  function HandlersSize(file: seq<u1>, code: Code): nat {
    if code.tries == [] then 0 else Unsigned(file, HandlerData(code))
  }

  /** The offset behind n handlers that follow each other from `offset` on. */
  function EndOffset(file: seq<u1>, base: nat, offset: nat, n: nat): nat
    decreases n
  {
    if n == 0 then offset else EndOffset(file, base, After(file, base, offset), n - 1)
  }

  function After(file: seq<u1>, base: nat, offset: nat): (r: nat)
    ensures r > offset
  {
    HandlerMoves(file, base + offset);
    Handler(file, base + offset).next - base
  }

  lemma HandlerMoves(file: seq<u1>, pos: nat)
    ensures Handler(file, pos).next > pos
  {
    var size := Signed(file, pos);
    PairsMove(file, Next(file, pos), if size < 0 then -size else size);
  }

  lemma {:induction false} PairsMove(file: seq<u1>, pos: nat, n: nat)
    ensures Pairs(file, pos, n).next >= pos && |Pairs(file, pos, n).catches| == n
    decreases n
  {
    if n != 0 {
      PairsMove(file, Next(file, Next(file, pos)), n - 1);
    }
  }

  /** The file offset behind all handlers. */
  function HandlersEnd(file: seq<u1>, code: Code): nat {
    var base := HandlerData(code);
    base + EndOffset(file, base, Size(file, base), Unsigned(file, base))
  }

  /** From the beginning of a code item to the end of its handlers, or of the padding before them. */
  function CodeSize(file: seq<u1>, code: Code): int {
    HandlerData(code) - code.off + EndOffset(file, HandlerData(code), FirstOffset(file, code), HandlersSize(file, code))
  }

  /** dexGetDexCodeSize. */
  method GetDexCodeSize(file: seq<u1>, code: Code) returns (size: nat)
    ensures size == CodeSize(file, code)
  {
    var handlersSize := GetHandlersSize(file, code);
    var offset := GetFirstHandlerOffset(file, code);
    hide Handler;
    var ui := 0;
    while ui < handlersSize
      invariant 0 <= ui <= handlersSize && offset >= 0
      invariant EndOffset(file, HandlerData(code), offset, handlersSize - ui) ==
        EndOffset(file, HandlerData(code), FirstOffset(file, code), handlersSize)
    {
      var it := new DexCatchIterator(file, HandlerData(code) + offset);
      HandlerMoves(file, HandlerData(code) + offset);
      offset := it.GetEndOffset(HandlerData(code));
      ui := ui + 1;
    }
    size := HandlerData(code) - code.off + offset;
  }

  /* ---- the verifier ---- */

  /** What every clause of a handler must be. */
  predicate Checked(c: Catch, typeIds: nat, insnsSize: nat) {
    (c.typeIdx < typeIds || c.typeIdx == NO_INDEX) && c.address < insnsSize
  }

  predicate PairsOk(file: seq<u1>, pos: nat, n: nat, typeIds: nat, insnsSize: nat)
    decreases n
  {
    n == 0 ||
    (var p := Next(file, pos);
     && Valid(file, pos) && Unsigned(file, pos) < typeIds
     && Valid(file, p) && Unsigned(file, p) < insnsSize
     && PairsOk(file, Next(file, p), n - 1, typeIds, insnsSize))
  }

  predicate HandlerOk(file: seq<u1>, pos: nat, typeIds: nat, insnsSize: nat) {
    var size := Signed(file, pos);
    var n := if size < 0 then -size else size;
    && Valid(file, pos) && -65536 <= size <= 65536
    && PairsOk(file, Next(file, pos), n, typeIds, insnsSize)
    && (size <= 0 ==>
          var p := Pairs(file, Next(file, pos), n).next;
          Valid(file, p) && Unsigned(file, p) < insnsSize)
  }

  predicate HandlersOk(file: seq<u1>, base: nat, offset: nat, n: nat, typeIds: nat, insnsSize: nat)
    decreases n
  {
    n == 0 ||
    (&& HandlerOk(file, base + offset, typeIds, insnsSize)
     && HandlersOk(file, base, After(file, base, offset), n - 1, typeIds, insnsSize))
  }

  /** Where the handlers begin. */
  function Offsets(file: seq<u1>, base: nat, offset: nat, n: nat): (offs: seq<nat>)
    ensures |offs| == n
    decreases n
  {
    if n == 0 then [] else [offset] + Offsets(file, base, After(file, base, offset), n - 1)
  }

  /** One turn of the loop in setHandlerOffsAndVerify; `ok` says that the handler at pos has passed. */
  method VerifyHandler(file: seq<u1>, pos: nat, typeIds: nat, insnsSize: nat) returns (ok: bool, ptr: nat)
    ensures ok <==> HandlerOk(file, pos, typeIds, insnsSize)
    ensures ok ==> ptr == Handler(file, pos).next
  {
    hide Unsigned, Signed, Leb128.Valid, Next, Size;
    var okay := true;
    var size;
    size, ptr, okay := ReadAndVerifySigned(file, pos, okay);
    if !okay {
      return false, ptr;
    }
    if size < -65536 || size > 65536 {
      return false, ptr;
    }
    var catchAll := false;
    if size <= 0 {
      catchAll := true;
      size := -size;
    }
    ghost var n: nat := size;
    ghost var first := ptr;
    while size > 0
      invariant 0 <= size <= n && okay
      invariant PairsOk(file, first, n, typeIds, insnsSize) <==> PairsOk(file, ptr, size, typeIds, insnsSize)
      invariant Pairs(file, first, n).next == Pairs(file, ptr, size).next
    {
      size := size - 1;
      var typeIdx, addr;
      typeIdx, ptr, okay := ReadAndVerifyUnsigned(file, ptr, okay);
      if !okay {
        return false, ptr;
      }
      if typeIdx >= typeIds {
        return false, ptr;
      }
      addr, ptr, okay := ReadAndVerifyUnsigned(file, ptr, okay);
      if !okay {
        return false, ptr;
      }
      if addr >= insnsSize {
        return false, ptr;
      }
    }
    if catchAll {
      var addr;
      addr, ptr, okay := ReadAndVerifyUnsigned(file, ptr, okay);
      if !okay {
        return false, ptr;
      }
      if addr >= insnsSize {
        return false, ptr;
      }
    }
    ok := true;
  }

  /** setHandlerOffsAndVerify: the end offset, or 0. */
  method SetHandlerOffsAndVerify(file: seq<u1>, base: nat, typeIds: nat, insnsSize: nat, firstOffset: nat,
      handlerOffs: array<nat>)
    returns (end: nat)
    requires firstOffset > 0
    modifies handlerOffs
    ensures end != 0 <==> HandlersOk(file, base, firstOffset, handlerOffs.Length, typeIds, insnsSize)
    ensures end != 0 ==>
      && end == EndOffset(file, base, firstOffset, handlerOffs.Length)
      && handlerOffs[..] == Offsets(file, base, firstOffset, handlerOffs.Length)
  {
    hide HandlerOk, Handler;
    var offset := firstOffset;
    var n := handlerOffs.Length;
    ghost var all := Offsets(file, base, firstOffset, n);
    for i := 0 to n
      invariant offset > 0 && handlerOffs[..i] == all[..i] && all[i..] == Offsets(file, base, offset, n - i)
      invariant HandlersOk(file, base, firstOffset, n, typeIds, insnsSize) <==>
          HandlersOk(file, base, offset, n - i, typeIds, insnsSize)
      invariant EndOffset(file, base, firstOffset, n) == EndOffset(file, base, offset, n - i)
    {
      var ok, ptr := VerifyHandler(file, base + offset, typeIds, insnsSize);
      if !ok {
        return 0;
      }
      handlerOffs[i] := offset;
      assert all[i..][0] == offset && all[i..][1..] == all[i + 1..];
      HandlerMoves(file, base + offset);
      offset := ptr - base;
    }
    end := offset;
  }

  /* ---- tries ---- */

  function End(t: Try): nat {
    t.startAddr + t.insnCount
  }

  predicate Covers(t: Try, address: nat) {
    t.startAddr <= address < End(t)
  }

  /** Tries in order, disjoint and inside the code, with handlers that have been checked. */
  predicate TriesOk(tries: seq<Try>, insnsSize: nat, offs: seq<nat>) {
    forall i | 0 <= i < |tries| :: TryOk(tries, i, insnsSize, offs)
  }

  predicate TryOk(tries: seq<Try>, i: nat, insnsSize: nat, offs: seq<nat>)
    requires i < |tries|
  {
    && (i > 0 ==> End(tries[i - 1]) <= tries[i].startAddr)
    && tries[i].startAddr < insnsSize && End(tries[i]) <= insnsSize
    && tries[i].handlerOff in offs
  }

  /** Everything swapTriesAndCatches asks for. */
  predicate CodeOk(file: seq<u1>, code: Code, typeIds: nat) {
    var base := HandlerData(code);
    var n, first := Unsigned(file, base), Size(file, base);
    && Valid(file, base) && 0 < n < 65536 && base <= |file|
    && HandlersOk(file, base, first, n, typeIds, code.insnsSize)
    && TriesOk(code.tries, code.insnsSize, Offsets(file, base, first, n))
  }

  /**
   swapTriesAndCatches: the file offset behind the handlers, if the code item is accepted. swapCodeItem
   has checked before that the instructions are inside the file, so that no end of a try wraps.
   */
  method SwapTriesAndCatches(file: seq<u1>, code: Code, typeIds: nat) returns (end: Option<nat>)
    requires InsnsEnd(code) <= |file| < MAX_FILE
    ensures end.Some? <==> CodeOk(file, code, typeIds)
    ensures end.Some? ==> end.value == HandlersEnd(file, code)
  {
    hide HandlersOk, EndOffset, TriesOk, Valid, Unsigned, Size, HandlerData, At;
    var base := HandlerData(code);
    var handlersSize, ptr, okay := ReadAndVerifyUnsigned(file, base, true);
    if !okay {
      return None;
    }
    if handlersSize == 0 || handlersSize >= 65536 {
      return None;
    }
    var handlerOffs := new nat[handlersSize];
    var endOffset := SetHandlerOffsAndVerify(file, base, typeIds, code.insnsSize, ptr - base, handlerOffs);
    if endOffset == 0 {
      return None;
    }
    if base > |file| {
      return None;
    }
    var ok := VerifyTries(code, handlerOffs);
    end := if ok then Some(base + endOffset) else None;
  }

  /** The loop of swapTriesAndCatches over the try items. */
  method VerifyTries(code: Code, handlerOffs: array<nat>) returns (ok: bool)
    requires 2 * code.insnsSize < MAX_FILE
    ensures ok <==> TriesOk(code.tries, code.insnsSize, handlerOffs[..])
  {
    var lastEnd: u4 := 0;
    for k := 0 to |code.tries|
      invariant forall i | 0 <= i < k :: TryOk(code.tries, i, code.insnsSize, handlerOffs[..])
      invariant lastEnd == if k == 0 then 0 else End(code.tries[k - 1])
      invariant lastEnd <= code.insnsSize
    {
      var t := code.tries[k];
      if t.startAddr < lastEnd || t.startAddr >= code.insnsSize {
        assert !TryOk(code.tries, k, code.insnsSize, handlerOffs[..]);
        return false;
      }
      var i := 0;
      while i < handlerOffs.Length && t.handlerOff != handlerOffs[i]
        invariant 0 <= i <= handlerOffs.Length && forall j | 0 <= j < i :: handlerOffs[j] != t.handlerOff
      {
        i := i + 1;
      }
      if i == handlerOffs.Length {
        assert !TryOk(code.tries, k, code.insnsSize, handlerOffs[..]);
        return false;
      }
      assert handlerOffs[..][i] == t.handlerOff;
      lastEnd := (t.startAddr + t.insnCount) % 0x1_0000_0000;
      if lastEnd > code.insnsSize {
        assert !TryOk(code.tries, k, code.insnsSize, handlerOffs[..]);
        return false;
      }
    }
    ok := true;
  }

  /* ---- why the unchecked readers are right about what has been accepted ---- */

  /** The handler of the first try that covers an address, found by looking at every try; -1 if there is none. */
  function Scan(tries: seq<Try>, address: nat): int {
    if tries == [] then -1
    else if Covers(tries[0], address) then tries[0].handlerOff
    else Scan(tries[1..], address)
  }

  predicate InOrder(tries: seq<Try>) {
    forall i, j | 0 <= i < j < |tries| :: End(tries[i]) <= tries[j].startAddr
  }

  lemma {:induction false} AcceptedInOrder(tries: seq<Try>, insnsSize: nat, offs: seq<nat>, j: nat)
    requires TriesOk(tries, insnsSize, offs) && j < |tries|
    ensures forall i | 0 <= i < j :: End(tries[i]) <= tries[j].startAddr
  {
    if j > 0 {
      AcceptedInOrder(tries, insnsSize, offs, j - 1);
      assert TryOk(tries, j, insnsSize, offs);
    }
  }

  lemma {:induction false} ScanFinds(tries: seq<Try>, address: nat, k: nat)
    requires k < |tries| && Covers(tries[k], address) && forall i | 0 <= i < k :: !Covers(tries[i], address)
    ensures Scan(tries, address) == tries[k].handlerOff
  {
    if k > 0 {
      ScanFinds(tries[1..], address, k - 1);
    }
  }

  lemma {:induction false} ScanMisses(tries: seq<Try>, address: nat)
    requires forall i | 0 <= i < |tries| :: !Covers(tries[i], address)
    ensures Scan(tries, address) == -1
  {
    if tries != [] {
      ScanMisses(tries[1..], address);
    }
  }

  /** dexFindCatchHandlerOffset0: the binary search gives what the scan gives. */
  method FindCatchHandlerOffset(tries: seq<Try>, address: u4) returns (offset: int)
    requires InOrder(tries) && forall i | 0 <= i < |tries| :: End(tries[i]) < MAX_FILE
    ensures offset == Scan(tries, address)
    ensures offset == -1 <==> forall i | 0 <= i < |tries| :: !Covers(tries[i], address)
  {
    var min: int, max: int := 0, |tries| - 1;
    while max >= min
      invariant 0 <= min <= |tries| && -1 <= max < |tries|
      invariant forall i | 0 <= i < min :: End(tries[i]) <= address
      invariant forall i | max < i < |tries| :: address < tries[i].startAddr
    {
      var guess := (min + max) / 2;
      var start := tries[guess].startAddr;
      if address < start {
        max := guess - 1;
      } else {
        var end := (start + tries[guess].insnCount) % 0x1_0000_0000;
        if address >= end {
          min := guess + 1;
        } else {
          ScanFinds(tries, address, guess);
          return tries[guess].handlerOff;
        }
      }
    }
    ScanMisses(tries, address);
    offset := -1;
  }

  /** At most one try covers an address. */
  lemma CoverIsUnique(tries: seq<Try>, address: nat, i: nat, j: nat)
    requires InOrder(tries) && i < |tries| && j < |tries| && Covers(tries[i], address) && Covers(tries[j], address)
    ensures i == j
  {
  }

  lemma {:induction false} PairsChecked(file: seq<u1>, pos: nat, n: nat, typeIds: nat, insnsSize: nat)
    requires PairsOk(file, pos, n, typeIds, insnsSize)
    ensures forall c | c in Pairs(file, pos, n).catches :: c.typeIdx < typeIds && c.address < insnsSize
    decreases n
  {
    if n != 0 {
      PairsChecked(file, Next(file, Next(file, pos)), n - 1, typeIds, insnsSize);
    }
  }

  /** A handler that has passed yields checked clauses only; a catch-all comes last. */
  lemma HandlerChecked(file: seq<u1>, pos: nat, typeIds: nat, insnsSize: nat)
    requires HandlerOk(file, pos, typeIds, insnsSize)
    ensures var cs := Handler(file, pos).catches;
      && (forall c | c in cs :: Checked(c, typeIds, insnsSize))
      && (typeIds <= NO_INDEX ==> forall i | 0 <= i < |cs| && cs[i].typeIdx == NO_INDEX :: i == |cs| - 1)
  {
    var size := Signed(file, pos);
    var n := if size < 0 then -size else size;
    PairsChecked(file, Next(file, pos), n, typeIds, insnsSize);
    PairsMove(file, Next(file, pos), n);
    var ps := Pairs(file, Next(file, pos), n).catches;
    assert forall i | 0 <= i < |ps| :: ps[i] in ps;
  }

  lemma {:induction false} OffsetsOk(file: seq<u1>, base: nat, offset: nat, n: nat, typeIds: nat, insnsSize: nat,
      k: nat)
    requires HandlersOk(file, base, offset, n, typeIds, insnsSize) && k < n
    ensures HandlerOk(file, base + Offsets(file, base, offset, n)[k], typeIds, insnsSize)
    decreases n
  {
    hide HandlerOk;
    if k > 0 {
      OffsetsOk(file, base, After(file, base, offset), n - 1, typeIds, insnsSize, k - 1);
    }
  }

  /** In a code item that has been accepted, every try leads to a handler that has been checked. */
  lemma AcceptedTry(file: seq<u1>, code: Code, typeIds: nat, i: nat)
    requires CodeOk(file, code, typeIds) && i < |code.tries|
    ensures HandlerOk(file, HandlerData(code) + code.tries[i].handlerOff, typeIds, code.insnsSize)
    ensures InOrder(code.tries) && End(code.tries[i]) <= code.insnsSize
  {
    hide HandlersOk, HandlerOk;
    var base := HandlerData(code);
    var n, first := Unsigned(file, base), Size(file, base);
    var offs := Offsets(file, base, first, n);
    assert TryOk(code.tries, i, code.insnsSize, offs);
    var k :| 0 <= k < |offs| && offs[k] == code.tries[i].handlerOff;
    OffsetsOk(file, base, first, n, typeIds, code.insnsSize, k);
    forall p, j | 0 <= p < j < |code.tries|
      ensures End(code.tries[p]) <= code.tries[j].startAddr
    {
      AcceptedInOrder(code.tries, code.insnsSize, offs, j);
    }
  }

  /**
   dexFindCatchHandler on a code item that has been accepted: the iterator walks the handler of the one
   try that covers the address, and every clause it yields has been checked.
   */
  method FindCatchHandler(file: seq<u1>, code: Code, address: u4, ghost typeIds: nat) returns (it: DexCatchIterator?)
    requires code.tries != [] ==> CodeOk(file, code, typeIds)
    requires InsnsEnd(code) <= |file| < MAX_FILE
    ensures it == null <==> forall i | 0 <= i < |code.tries| :: !Covers(code.tries[i], address)
    ensures it != null ==> fresh(it) && it.file == file
    ensures it != null ==> exists k | 0 <= k < |code.tries| && Covers(code.tries[k], address) ::
        it.Rest() == HandlerOf(file, code, k)
    ensures it != null ==> forall c | c in it.Rest().catches :: Checked(c, typeIds, code.insnsSize)
  {
    hide *;
    it := null;
    AcceptedTries(file, code, typeIds);
    var offset := FindOffset(code.tries, address);
    ScanFails(code.tries, address);
    if offset < 0 {
      return;
    }
    ScanIsTry(code.tries, address);
    ghost var k :|
      0 <= k < |code.tries| && Covers(code.tries[k], address) && code.tries[k].handlerOff == Scan(code.tries, address);
    HandlerIs(file, code, k);
    AcceptedTry(file, code, typeIds, k);
    HandlerChecked(file, HandlerData(code) + offset, typeIds, code.insnsSize);
    it := new DexCatchIterator(file, HandlerData(code) + offset);
  }

  /** The clauses that try k leads to. */
  function HandlerOf(file: seq<u1>, code: Code, k: nat): Parsed
    requires k < |code.tries|
  {
    Handler(file, HandlerData(code) + code.tries[k].handlerOff)
  }

  lemma HandlerIs(file: seq<u1>, code: Code, k: nat)
    requires k < |code.tries|
    ensures HandlerOf(file, code, k) == Handler(file, HandlerData(code) + code.tries[k].handlerOff)
  {
  }

  /** The switch of dexFindCatchHandler. */
  method FindOffset(tries: seq<Try>, address: u4) returns (offset: int)
    requires InOrder(tries) && forall i | 0 <= i < |tries| :: End(tries[i]) < MAX_FILE
    ensures offset == Scan(tries, address)
  {
    offset := -1;
    if |tries| == 1 {
      var start := tries[0].startAddr;
      if address < start {
        return;
      }
      var end := (start + tries[0].insnCount) % 0x1_0000_0000;
      if address >= end {
        return;
      }
      offset := tries[0].handlerOff;
    } else if |tries| > 1 {
      offset := FindCatchHandlerOffset(tries, address);
    }
  }

  lemma AcceptedTries(file: seq<u1>, code: Code, typeIds: nat)
    requires code.tries != [] ==> CodeOk(file, code, typeIds)
    requires InsnsEnd(code) <= |file| < MAX_FILE
    ensures InOrder(code.tries) && forall i | 0 <= i < |code.tries| :: End(code.tries[i]) < MAX_FILE
  {
    hide CodeOk, HandlerOk;
    forall i | 0 <= i < |code.tries|
      ensures End(code.tries[i]) <= code.insnsSize && InOrder(code.tries)
    {
      AcceptedTry(file, code, typeIds, i);
    }
    assert code.tries == [] ==> InOrder(code.tries);
    assert code.tries != [] ==> End(code.tries[0]) <= code.insnsSize;
  }

  lemma ScanFails(tries: seq<Try>, address: nat)
    ensures Scan(tries, address) >= -1
    ensures Scan(tries, address) == -1 <==> forall i | 0 <= i < |tries| :: !Covers(tries[i], address)
  {
    if exists i :: 0 <= i < |tries| && Covers(tries[i], address) {
      FirstCover(tries, address);
    } else {
      ScanMisses(tries, address);
    }
  }

  lemma {:induction false} FirstCover(tries: seq<Try>, address: nat)
    requires exists i :: 0 <= i < |tries| && Covers(tries[i], address)
    ensures Scan(tries, address) >= 0
  {
    var i :| 0 <= i < |tries| && Covers(tries[i], address);
    if !Covers(tries[0], address) {
      assert tries[1..][i - 1] == tries[i];
      FirstCover(tries[1..], address);
    }
  }

  lemma {:induction false} ScanIsTry(tries: seq<Try>, address: nat)
    requires Scan(tries, address) != -1
    ensures exists k :: 0 <= k < |tries| && Covers(tries[k], address) && tries[k].handlerOff == Scan(tries, address)
  {
    if !Covers(tries[0], address) {
      ScanIsTry(tries[1..], address);
      var k :|
        0 <= k < |tries[1..]| && Covers(tries[1..][k], address) &&
        tries[1..][k].handlerOff == Scan(tries[1..], address);
      assert tries[k + 1] == tries[1..][k];
    }
  }

  /** Where swapCodeItem ends: behind the instructions if there are no tries, else where swapTriesAndCatches ends. */
  function VerifiedEnd(file: seq<u1>, code: Code): nat {
    if code.tries == [] then InsnsEnd(code) else HandlersEnd(file, code)
  }

  /**
   dexGetDexCodeSize ends where the verifier has ended exactly if there are tries or the instructions end
   on a four-byte boundary. Without tries it counts the padding that only tries need.
   */
  lemma CodeSizeAgrees(file: seq<u1>, code: Code)
    ensures code.off + CodeSize(file, code) == VerifiedEnd(file, code) <==> code.tries != [] || InsnsEnd(code) % 4 == 0
  {
    assert EndOffset(file, HandlerData(code), 0, 0) == 0;
  }

  /** One instruction unit and no tries, anywhere: the verifier has seen 18 bytes, dexGetDexCodeSize counts 20. */
  lemma PaddingIsCounted(file: seq<u1>, off: nat)
    requires off % 4 == 0
    ensures VerifiedEnd(file, Code(off, 1, [])) == off + 18 && CodeSize(file, Code(off, 1, [])) == 20
  {
    var code := Code(off, 1, []);
    assert EndOffset(file, HandlerData(code), 0, 0) == 0;
  }
}
