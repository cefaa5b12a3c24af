/**
 Encoded values, arrays and annotations: the mutually recursive verifier of libdex/DexSwapVerify.cpp,
 and the trees that it accepts.
 */
module EncodedValue {
  import opened Leb128
  import opened Options

  const BYTE := 0x00
  const SHORT := 0x02
  const CHAR := 0x03
  const INT := 0x04
  const LONG := 0x06
  const FLOAT := 0x10
  const DOUBLE := 0x11
  const STRING := 0x17
  const TYPE := 0x18
  const METHOD := 0x1a
  const ENUM := 0x1b
  const ARRAY := 0x1c
  const ANNOTATION := 0x1d
  const NULL := 0x1e
  const BOOLEAN := 0x1f

  /** Sizes of the id tables, and what the cross-verify pass asks of types and names; the first pass asks nothing. */
  datatype Context = Context(strings: nat, types: nat, fields: nat, methods: nat, isClass: u4 -> bool,
      isName: u4 -> bool)

  predicate IsScalar(kind: int) {
    kind == BYTE || kind == SHORT || kind == CHAR || kind == INT || kind == LONG || kind == FLOAT || kind == DOUBLE
  }

  predicate IsIndex(kind: int) {
    STRING <= kind <= ENUM
  }

  /** The most bytes a scalar may take. */
  function Width(kind: int): nat {
    if kind == BYTE then 1 else if kind == SHORT || kind == CHAR then 2 else if kind == INT || kind == FLOAT then 4
        else 8
  }

  function Limit(c: Context, kind: int): nat {
    if kind == STRING then c.strings else if kind == TYPE then c.types else if kind == METHOD then c.methods
        else c.fields
  }

  /** Little-endian. */
  function Little(file: seq<u1>, pos: nat, n: nat): nat
    decreases n
  {
    if n == 0 then 0 else At(file, pos) + 0x100 * Little(file, pos + 1, n - 1)
  }

  /* ---- trees ---- */

  /** A number as it is written: LEB128 may spend more bytes than needed. */
  datatype Num = Num(bytes: seq<u1>)

  datatype Value =
    | Scalar(kind: int, data: seq<u1>)
    | Index(kind: int, data: seq<u1>)
    | ArrayValue(a: Array)
    | AnnotationValue(n: Annotation)
    | NullValue
    | BooleanValue(b: bool)

  datatype Array = Array(size: Num, elems: Values)
  datatype Values = Nil | Cons(head: Value, tail: Values)
  datatype Annotation = Annotation(typeIdx: Num, size: Num, members: Members)
  datatype Members = End | Member(name: Num, value: Value, rest: Members)

  predicate NumOk(n: Num) {
    && 1 <= |n.bytes| <= 5
    && (forall i | 0 <= i < |n.bytes| - 1 :: n.bytes[i] > 0x7f)
    && (if |n.bytes| == 5 then n.bytes[4] <= 0x0f else n.bytes[|n.bytes| - 1] <= 0x7f)
  }

  function Amount(n: Num): u4 {
    Unsigned(n.bytes, 0)
  }

  function Count(vs: Values): nat {
    match vs
    case Nil => 0
    case Cons(_, tail) => 1 + Count(tail)
  }

  function CountMembers(ms: Members): nat {
    match ms
    case End => 0
    case Member(_, _, rest) => 1 + CountMembers(rest)
  }

  /** What the format asks of a value. */
  predicate ValueOk(c: Context, v: Value) {
    match v
    case Scalar(kind, data) => IsScalar(kind) && 1 <= |data| <= Width(kind)
    case Index(kind, data) => IsIndex(kind) && 1 <= |data| <= 4 && Little(data, 0, |data|) < Limit(c, kind)
    case ArrayValue(a) => ArrayOk(c, a)
    case AnnotationValue(n) => AnnotationOk(c, n)
    case NullValue => true
    case BooleanValue(_) => true
  }

  predicate ArrayOk(c: Context, a: Array) {
    NumOk(a.size) && Amount(a.size) == Count(a.elems) && ValuesOk(c, a.elems)
  }

  predicate ValuesOk(c: Context, vs: Values) {
    match vs
    case Nil => true
    case Cons(head, tail) => ValueOk(c, head) && ValuesOk(c, tail)
  }

  predicate AnnotationOk(c: Context, a: Annotation) {
    && NumOk(a.typeIdx) && Amount(a.typeIdx) < c.types && c.isClass(Amount(a.typeIdx))
    && NumOk(a.size) && Amount(a.size) == CountMembers(a.members)
    && MembersOk(c, a.members, -1)
  }

  /** Names are in range and strictly ascending. */
  predicate MembersOk(c: Context, ms: Members, last: int) {
    match ms
    case End => true
    case Member(name, value, rest) =>
      && NumOk(name) && last < Amount(name) < c.strings && c.isName(Amount(name))
      && ValueOk(c, value) && MembersOk(c, rest, Amount(name))
  }

  /* ---- printing ---- */

  function Header(kind: int, arg: nat): u1
    requires 0 <= kind < 0x20 && arg < 8
  {
    arg * 0x20 + kind
  }

  function Print(c: Context, v: Value): (b: seq<u1>)
    requires ValueOk(c, v)
    ensures |b| >= 1
  {
    match v
    case Scalar(kind, data) => [Header(kind, |data| - 1)] + data
    case Index(kind, data) => [Header(kind, |data| - 1)] + data
    case ArrayValue(a) => [Header(ARRAY, 0)] + PrintArray(c, a)
    case AnnotationValue(n) => [Header(ANNOTATION, 0)] + PrintAnnotation(c, n)
    case NullValue => [Header(NULL, 0)]
    case BooleanValue(b) => [Header(BOOLEAN, if b then 1 else 0)]
  }

  function PrintArray(c: Context, a: Array): seq<u1>
    requires ArrayOk(c, a)
  {
    a.size.bytes + PrintAll(c, a.elems)
  }

  function PrintAll(c: Context, vs: Values): seq<u1>
    requires ValuesOk(c, vs)
  {
    match vs
    case Nil => []
    case Cons(head, tail) => Print(c, head) + PrintAll(c, tail)
  }

  function PrintAnnotation(c: Context, a: Annotation): seq<u1>
    requires AnnotationOk(c, a)
  {
    a.typeIdx.bytes + a.size.bytes + PrintMembers(c, a.members, -1)
  }

  function PrintMembers(c: Context, ms: Members, last: int): seq<u1>
    requires MembersOk(c, ms, last)
  {
    match ms
    case End => []
    case Member(name, value, rest) => name.bytes + Print(c, value) + PrintMembers(c, rest, Amount(name))
  }

  /* ---- the verifier ---- */

  /**
   Where the verifier ends up. `whole` says that no index was cut off by the end of the file: an index
   that is cut off reads as 0 and is not skipped.
   */
  datatype Pass = Pass(end: nat, whole: bool)

  function Also(p: Option<Pass>, whole: bool): Option<Pass> {
    match p
    case None => None
    case Some(q) => Some(Pass(q.end, q.whole && whole))
  }

  function VerifyValue(c: Context, file: seq<u1>, pos: nat): (r: Option<Pass>)
    ensures r.Some? ==> pos < |file| && r.value.end > pos
    decreases if pos <= |file| then |file| - pos else 0, 0
  {
    if pos >= |file| then None
    else
      var kind: int, arg: int := file[pos] % 0x20, file[pos] / 0x20;
      var at := pos + 1;
      if IsScalar(kind) then
        if arg + 1 > Width(kind) then None else Some(Pass(at + arg + 1, true))
      else if IsIndex(kind) then
        if arg > 3 then None
        else if at + arg + 1 <= |file| then
          if Little(file, at, arg + 1) < Limit(c, kind) then Some(Pass(at + arg + 1, true)) else None
        else
          if 0 < Limit(c, kind) then Some(Pass(at, false)) else None
      else if kind == ARRAY then
        if arg != 0 then None else VerifyArray(c, file, at)
      else if kind == ANNOTATION then
        if arg != 0 then None else VerifyAnnotation(c, file, at)
      else if kind == NULL then
        if arg != 0 then None else Some(Pass(at, true))
      else if kind == BOOLEAN then
        if arg > 1 then None else Some(Pass(at, true))
      else None
  }

  function VerifyArray(c: Context, file: seq<u1>, pos: nat): (r: Option<Pass>)
    ensures r.Some? ==> r.value.end > pos
    decreases if pos <= |file| then |file| - pos else 0, 2
  {
    if !Valid(file, pos) then None else VerifyAll(c, file, Next(file, pos), Unsigned(file, pos))
  }

  function VerifyAll(c: Context, file: seq<u1>, pos: nat, n: nat): (r: Option<Pass>)
    ensures r.Some? ==> r.value.end >= pos
    decreases if pos <= |file| then |file| - pos else 0, 1
  {
    if n == 0 then Some(Pass(pos, true))
    else
      match VerifyValue(c, file, pos)
      case None => None
      case Some(p) => Also(VerifyAll(c, file, p.end, n - 1), p.whole)
  }

  function VerifyAnnotation(c: Context, file: seq<u1>, pos: nat): (r: Option<Pass>)
    ensures r.Some? ==> r.value.end > pos
    decreases if pos <= |file| then |file| - pos else 0, 2
  {
    if !Valid(file, pos) || Unsigned(file, pos) >= c.types || !c.isClass(Unsigned(file, pos)) then None
    else
      var p := Next(file, pos);
      if !Valid(file, p) then None else VerifyMembers(c, file, Next(file, p), Unsigned(file, p), -1)
  }

  function VerifyMembers(c: Context, file: seq<u1>, pos: nat, n: nat, last: int): (r: Option<Pass>)
    ensures r.Some? ==> r.value.end >= pos
    decreases if pos <= |file| then |file| - pos else 0, 1
  {
    if n == 0 then Some(Pass(pos, true))
    else if !Valid(file, pos) then None
    else
      var idx := Unsigned(file, pos);
      if idx >= c.strings || !c.isName(idx) || last >= idx then None
      else
        match VerifyValue(c, file, Next(file, pos))
        case None => None
        case Some(p) => Also(VerifyMembers(c, file, p.end, n - 1, idx), p.whole)
  }

  /* ---- numbers in a file ---- */

  predicate Same(f: seq<u1>, p: nat, g: seq<u1>, q: nat, i: nat) {
    At(g, q + i) == At(f, p + i)
  }

  /** A number depends on its own bytes only. */
  lemma SameNumber(f: seq<u1>, p: nat, g: seq<u1>, q: nat)
    requires forall i | 0 <= i < Size(f, p) :: Same(f, p, g, q, i)
    ensures Size(g, q) == Size(f, p) && Unsigned(g, q) == Unsigned(f, p)
  {
    hide At;
    var n := Size(f, p);
    assert Same(f, p, g, q, 0);
    assert n > 1 ==> Same(f, p, g, q, 1);
    assert n > 2 ==> Same(f, p, g, q, 2);
    assert n > 3 ==> Same(f, p, g, q, 3);
    assert n > 4 ==> Same(f, p, g, q, 4);
  }

  lemma NumSize(n: Num)
    requires NumOk(n)
    ensures Size(n.bytes, 0) == |n.bytes|
  {
    var k := |n.bytes|;
    assert At(n.bytes, 0) == n.bytes[0];
    assert k > 1 ==> At(n.bytes, 1) == n.bytes[1];
    assert k > 2 ==> At(n.bytes, 2) == n.bytes[2];
    assert k > 3 ==> At(n.bytes, 3) == n.bytes[3];
  }

  /** A number that is written in the file reads back. */
  lemma NumReads(n: Num, file: seq<u1>, pos: nat)
    requires NumOk(n) && pos + |n.bytes| <= |file| && file[pos..pos + |n.bytes|] == n.bytes
    ensures Valid(file, pos) && Next(file, pos) == pos + |n.bytes| && Unsigned(file, pos) == Amount(n)
  {
    NumSize(n);
    forall i | 0 <= i < |n.bytes|
      ensures Same(n.bytes, 0, file, pos, i)
    {
      assert file[pos..pos + |n.bytes|][i] == file[pos + i];
    }
    SameNumber(n.bytes, 0, file, pos);
    if |n.bytes| == 5 {
      assert Same(n.bytes, 0, file, pos, 4);
    }
  }

  /** A number that passes is one that could have been written. */
  lemma NumWritten(file: seq<u1>, pos: nat)
    requires Valid(file, pos)
    ensures pos < Next(file, pos) <= |file|
    ensures var n := Num(file[pos..Next(file, pos)]); NumOk(n) && Amount(n) == Unsigned(file, pos)
  {
    var k := Size(file, pos);
    var n := Num(file[pos..pos + k]);
    assert forall i | 0 <= i < k :: n.bytes[i] == file[pos + i];
    assert At(file, pos) == At(file, pos + 0);
    assert NumOk(n);
    forall i | 0 <= i < k
      ensures Same(file, pos, n.bytes, 0, i)
    {
    }
    SameNumber(file, pos, n.bytes, 0);
  }

  lemma {:induction false} SameLittle(f: seq<u1>, p: nat, g: seq<u1>, q: nat, n: nat)
    requires forall i | 0 <= i < n :: Same(f, p, g, q, i)
    ensures Little(g, q, n) == Little(f, p, n)
    decreases n
  {
    if n > 0 {
      assert Same(f, p, g, q, 0);
      var p1, q1 := p + 1, q + 1;
      forall i | 0 <= i < n - 1
        ensures Same(f, p1, g, q1, i)
      {
        assert Same(f, p, g, q, i + 1);
        assert q1 + i == q + (i + 1) && p1 + i == p + (i + 1);
      }
      SameLittle(f, p1, g, q1, n - 1);
    }
  }

  /* ---- what is accepted ---- */

  /** b is written at pos. */
  predicate Written(file: seq<u1>, pos: nat, b: seq<u1>) {
    pos + |b| <= |file| && file[pos..pos + |b|] == b
  }

  lemma Split(file: seq<u1>, pos: nat, a: seq<u1>, b: seq<u1>)
    requires Written(file, pos, a + b)
    ensures Written(file, pos, a) && Written(file, pos + |a|, b)
  {
    assert file[pos..pos + |a + b|][..|a|] == file[pos..pos + |a|];
    assert file[pos..pos + |a + b|][|a|..] == file[pos + |a|..pos + |a| + |b|];
  }

  lemma HeaderReads(kind: int, arg: nat, file: seq<u1>, pos: nat)
    requires 0 <= kind < 0x20 && arg < 8 && Written(file, pos, [Header(kind, arg)])
    ensures pos < |file| && file[pos] % 0x20 == kind && file[pos] / 0x20 == arg
  {
    assert file[pos..pos + 1][0] == file[pos];
  }

  lemma LittleReads(data: seq<u1>, file: seq<u1>, pos: nat)
    requires Written(file, pos, data)
    ensures Little(file, pos, |data|) == Little(data, 0, |data|)
  {
    forall i | 0 <= i < |data|
      ensures Same(data, 0, file, pos, i)
    {
      assert file[pos..pos + |data|][i] == file[pos + i];
    }
    SameLittle(data, 0, file, pos, |data|);
  }

  /** Every well-formed value that is written in the file is accepted, and the verifier ends just behind it. */
  lemma {:induction false} AcceptsValue(c: Context, v: Value, file: seq<u1>, pos: nat)
    requires ValueOk(c, v) && Written(file, pos, Print(c, v))
    ensures VerifyValue(c, file, pos) == Some(Pass(pos + |Print(c, v)|, true))
    decreases v
  {
    hide Little, Written, VerifyArray, VerifyAnnotation, PrintArray, PrintAnnotation, ArrayOk, AnnotationOk;
    match v
    case Scalar(kind, data) =>
      Split(file, pos, [Header(kind, |data| - 1)], data);
      HeaderReads(kind, |data| - 1, file, pos);
    case Index(kind, data) =>
      Split(file, pos, [Header(kind, |data| - 1)], data);
      HeaderReads(kind, |data| - 1, file, pos);
      LittleReads(data, file, pos + 1);
    case ArrayValue(a) =>
      Split(file, pos, [Header(ARRAY, 0)], PrintArray(c, a));
      HeaderReads(ARRAY, 0, file, pos);
      AcceptsArray(c, a, file, pos + 1);
    case AnnotationValue(n) =>
      Split(file, pos, [Header(ANNOTATION, 0)], PrintAnnotation(c, n));
      HeaderReads(ANNOTATION, 0, file, pos);
      AcceptsAnnotation(c, n, file, pos + 1);
    case NullValue =>
      HeaderReads(NULL, 0, file, pos);
    case BooleanValue(b) =>
      HeaderReads(BOOLEAN, if b then 1 else 0, file, pos);
  }

  lemma {:induction false} AcceptsArray(c: Context, a: Array, file: seq<u1>, pos: nat)
    requires ArrayOk(c, a) && Written(file, pos, PrintArray(c, a))
    ensures VerifyArray(c, file, pos) == Some(Pass(pos + |PrintArray(c, a)|, true))
    decreases a
  {
    hide Written, VerifyAll, PrintAll, ValuesOk, NumOk, Amount, Valid, Unsigned, Next;
    Split(file, pos, a.size.bytes, PrintAll(c, a.elems));
    NumReads(a.size, file, pos);
    AcceptsAll(c, a.elems, file, pos + |a.size.bytes|);
  }

  lemma {:induction false} AcceptsAll(c: Context, vs: Values, file: seq<u1>, pos: nat)
    requires ValuesOk(c, vs) && Written(file, pos, PrintAll(c, vs))
    ensures VerifyAll(c, file, pos, Count(vs)) == Some(Pass(pos + |PrintAll(c, vs)|, true))
    decreases vs
  {
    hide Written, VerifyValue, Print, ValueOk;
    match vs
    case Nil =>
    case Cons(head, tail) =>
      Split(file, pos, Print(c, head), PrintAll(c, tail));
      AcceptsValue(c, head, file, pos);
      AcceptsAll(c, tail, file, pos + |Print(c, head)|);
  }

  lemma {:induction false} AcceptsAnnotation(c: Context, a: Annotation, file: seq<u1>, pos: nat)
    requires AnnotationOk(c, a) && Written(file, pos, PrintAnnotation(c, a))
    ensures VerifyAnnotation(c, file, pos) == Some(Pass(pos + |PrintAnnotation(c, a)|, true))
    decreases a
  {
    hide Written, VerifyMembers, PrintMembers, MembersOk, NumOk, Amount, Valid, Unsigned, Next;
    var rest := PrintMembers(c, a.members, -1);
    assert PrintAnnotation(c, a) == a.typeIdx.bytes + (a.size.bytes + rest);
    Split(file, pos, a.typeIdx.bytes, a.size.bytes + rest);
    NumReads(a.typeIdx, file, pos);
    var p := pos + |a.typeIdx.bytes|;
    Split(file, p, a.size.bytes, rest);
    NumReads(a.size, file, p);
    AcceptsMembers(c, a.members, -1, file, p + |a.size.bytes|);
  }

  lemma {:induction false} AcceptsMembers(c: Context, ms: Members, last: int, file: seq<u1>, pos: nat)
    requires MembersOk(c, ms, last) && Written(file, pos, PrintMembers(c, ms, last))
    ensures VerifyMembers(c, file, pos, CountMembers(ms), last) == Some(Pass(pos + |PrintMembers(c, ms, last)|, true))
    decreases ms
  {
    hide Written, VerifyValue, Print, ValueOk, NumOk, Amount, Valid, Unsigned, Next;
    match ms
    case End =>
    case Member(name, value, rest) =>
      var tail := PrintMembers(c, rest, Amount(name));
      assert PrintMembers(c, ms, last) == name.bytes + (Print(c, value) + tail);
      Split(file, pos, name.bytes, Print(c, value) + tail);
      NumReads(name, file, pos);
      var p := pos + |name.bytes|;
      Split(file, p, Print(c, value), tail);
      AcceptsValue(c, value, file, p);
      AcceptsMembers(c, rest, Amount(name), file, p + |Print(c, value)|);
  }

  /* ---- what an accepted value is ---- */

  lemma Joined(file: seq<u1>, pos: nat, mid: nat, end: nat)
    requires pos <= mid <= end <= |file|
    ensures file[pos..end] == file[pos..mid] + file[mid..end]
  {
  }

  lemma HeaderWritten(file: seq<u1>, pos: nat)
    requires pos < |file|
    ensures var kind: int, arg: int := file[pos] % 0x20, file[pos] / 0x20;
      0 <= kind < 0x20 && 0 <= arg < 8 && file[pos..pos + 1] == [Header(kind, arg)]
  {
  }

  /** What is accepted with no index cut off, and is wholly inside the file, is a well-formed value written there. */
  lemma {:induction false} ReadsValue(c: Context, file: seq<u1>, pos: nat) returns (v: Value)
    requires VerifyValue(c, file, pos).Some? && VerifyValue(c, file, pos).value.whole
    requires VerifyValue(c, file, pos).value.end <= |file|
    ensures ValueOk(c, v) && Print(c, v) == file[pos..VerifyValue(c, file, pos).value.end]
    decreases |file| - pos, 0
  {
    hide Little, VerifyArray, VerifyAnnotation, PrintArray, PrintAnnotation, ArrayOk, AnnotationOk;
    HeaderWritten(file, pos);
    var kind: int, arg: int := file[pos] % 0x20, file[pos] / 0x20;
    var end := VerifyValue(c, file, pos).value.end;
    var data := file[pos + 1..end];
    Joined(file, pos, pos + 1, end);
    if IsScalar(kind) {
      v := Scalar(kind, data);
    } else if IsIndex(kind) {
      LittleReads(data, file, pos + 1);
      v := Index(kind, data);
    } else if kind == ARRAY {
      var a := ReadsArray(c, file, pos + 1);
      v := ArrayValue(a);
    } else if kind == ANNOTATION {
      var n := ReadsAnnotation(c, file, pos + 1);
      v := AnnotationValue(n);
    } else if kind == NULL {
      v := NullValue;
    } else {
      v := BooleanValue(arg == 1);
    }
  }

  lemma {:induction false} ReadsArray(c: Context, file: seq<u1>, pos: nat) returns (a: Array)
    requires VerifyArray(c, file, pos).Some? && VerifyArray(c, file, pos).value.whole
    requires VerifyArray(c, file, pos).value.end <= |file|
    ensures ArrayOk(c, a) && PrintArray(c, a) == file[pos..VerifyArray(c, file, pos).value.end]
    decreases |file| - pos, 2
  {
    hide VerifyAll, PrintAll, ValuesOk, NumOk, Amount, Valid, Unsigned, Next;
    NumWritten(file, pos);
    var mid := Next(file, pos);
    var vs := ReadsAll(c, file, mid, Unsigned(file, pos));
    a := Array(Num(file[pos..mid]), vs);
    Joined(file, pos, mid, VerifyArray(c, file, pos).value.end);
  }

  lemma {:induction false} ReadsAll(c: Context, file: seq<u1>, pos: nat, n: nat) returns (vs: Values)
    requires pos <= |file|
    requires VerifyAll(c, file, pos, n).Some? && VerifyAll(c, file, pos, n).value.whole
    requires VerifyAll(c, file, pos, n).value.end <= |file|
    ensures ValuesOk(c, vs) && Count(vs) == n && PrintAll(c, vs) == file[pos..VerifyAll(c, file, pos, n).value.end]
    decreases |file| - pos, 1
  {
    hide VerifyValue, Print, ValueOk;
    vs := Nil;
    if n > 0 {
      var mid := VerifyValue(c, file, pos).value.end;
      AllEnds(c, file, mid, n - 1);
      var v := ReadsValue(c, file, pos);
      var tail := ReadsAll(c, file, mid, n - 1);
      vs := Cons(v, tail);
      Joined(file, pos, mid, VerifyAll(c, file, pos, n).value.end);
    }
  }

  lemma AllEnds(c: Context, file: seq<u1>, pos: nat, n: nat)
    ensures VerifyAll(c, file, pos, n).Some? ==> pos <= VerifyAll(c, file, pos, n).value.end
  {
  }

  lemma {:induction false} ReadsAnnotation(c: Context, file: seq<u1>, pos: nat) returns (a: Annotation)
    requires VerifyAnnotation(c, file, pos).Some? && VerifyAnnotation(c, file, pos).value.whole
    requires VerifyAnnotation(c, file, pos).value.end <= |file|
    ensures AnnotationOk(c, a) && PrintAnnotation(c, a) == file[pos..VerifyAnnotation(c, file, pos).value.end]
    decreases |file| - pos, 2
  {
    hide VerifyMembers, PrintMembers, MembersOk, NumOk, Amount, Valid, Unsigned, Next;
    NumWritten(file, pos);
    var p := Next(file, pos);
    NumWritten(file, p);
    var q := Next(file, p);
    var end := VerifyAnnotation(c, file, pos).value.end;
    var ms := ReadsMembers(c, file, q, Unsigned(file, p), -1);
    a := Annotation(Num(file[pos..p]), Num(file[p..q]), ms);
    Joined(file, pos, p, end);
    Joined(file, p, q, end);
    assert file[pos..p] + (file[p..q] + file[q..end]) == file[pos..p] + file[p..q] + file[q..end];
  }

  lemma {:induction false} ReadsMembers(c: Context, file: seq<u1>, pos: nat, n: nat, last: int) returns (ms: Members)
    requires pos <= |file|
    requires VerifyMembers(c, file, pos, n, last).Some? && VerifyMembers(c, file, pos, n, last).value.whole
    requires VerifyMembers(c, file, pos, n, last).value.end <= |file|
    ensures MembersOk(c, ms, last) && CountMembers(ms) == n
    ensures PrintMembers(c, ms, last) == file[pos..VerifyMembers(c, file, pos, n, last).value.end]
    decreases |file| - pos, 1
  {
    hide VerifyValue, Print, ValueOk, NumOk, Amount, Valid, Unsigned, Next;
    ms := End;
    if n > 0 {
      NumWritten(file, pos);
      var p := Next(file, pos);
      var idx := Unsigned(file, pos);
      var q := VerifyValue(c, file, p).value.end;
      var end := VerifyMembers(c, file, pos, n, last).value.end;
      MembersEnd(c, file, q, n - 1, idx);
      var v := ReadsValue(c, file, p);
      var rest := ReadsMembers(c, file, q, n - 1, idx);
      ms := Member(Num(file[pos..p]), v, rest);
      Joined(file, pos, p, end);
      Joined(file, p, q, end);
      assert file[pos..p] + (file[p..q] + file[q..end]) == file[pos..p] + file[p..q] + file[q..end];
    }
  }

  lemma MembersEnd(c: Context, file: seq<u1>, pos: nat, n: nat, last: int)
    ensures VerifyMembers(c, file, pos, n, last).Some? ==> pos <= VerifyMembers(c, file, pos, n, last).value.end
  {
  }

  predicate Spells(c: Context, v: Value, b: seq<u1>) {
    ValueOk(c, v) && Print(c, v) == b
  }

  /**
   What the verifier accepts, and passes over without leaving the file, is a well-formed value exactly if
   no index in it is cut off by the end of the file.
   */
  lemma AcceptedIsValue(c: Context, file: seq<u1>, pos: nat)
    requires VerifyValue(c, file, pos).Some? && VerifyValue(c, file, pos).value.end <= |file|
    ensures VerifyValue(c, file, pos).value.whole <==>
      exists v :: Spells(c, v, file[pos..VerifyValue(c, file, pos).value.end])
  {
    var p := VerifyValue(c, file, pos).value;
    hide VerifyValue, ValueOk, Print;
    if p.whole {
      var v := ReadsValue(c, file, pos);
      assert Spells(c, v, file[pos..p.end]);
    }
    if v :| Spells(c, v, file[pos..p.end]) {
      assert Written(file, pos, Print(c, v));
      AcceptsValue(c, v, file, pos);
    }
  }

  /** A string index of four bytes, none of which is there, is accepted if there is any string at all. */
  lemma CutIndexIsAccepted(c: Context)
    requires c.strings > 0
    ensures VerifyValue(c, [0x77], 0) == Some(Pass(1, false))
    ensures !exists v :: Spells(c, v, [0x77])
  {
    AcceptedIsValue(c, [0x77], 0);
    var file: seq<u1> := [0x77];
    assert file[0..1] == [0x77];
  }

  /** Four bytes behind the value are enough for no index to be cut off. */
  lemma {:induction false} WholeValue(c: Context, file: seq<u1>, pos: nat)
    requires VerifyValue(c, file, pos).Some? && VerifyValue(c, file, pos).value.end + 4 <= |file|
    ensures VerifyValue(c, file, pos).value.whole
    decreases if pos <= |file| then |file| - pos else 0, 0
  {
    hide VerifyArray, VerifyAnnotation;
    var kind := file[pos] % 0x20;
    if kind == ARRAY {
      WholeArray(c, file, pos + 1);
    } else if kind == ANNOTATION {
      WholeAnnotation(c, file, pos + 1);
    }
  }

  lemma {:induction false} WholeArray(c: Context, file: seq<u1>, pos: nat)
    requires VerifyArray(c, file, pos).Some? && VerifyArray(c, file, pos).value.end + 4 <= |file|
    ensures VerifyArray(c, file, pos).value.whole
    decreases if pos <= |file| then |file| - pos else 0, 2
  {
    WholeAll(c, file, Next(file, pos), Unsigned(file, pos));
  }

  lemma {:induction false} WholeAll(c: Context, file: seq<u1>, pos: nat, n: nat)
    requires VerifyAll(c, file, pos, n).Some? && VerifyAll(c, file, pos, n).value.end + 4 <= |file|
    ensures VerifyAll(c, file, pos, n).value.whole
    decreases if pos <= |file| then |file| - pos else 0, 1
  {
    hide VerifyValue;
    if n > 0 {
      AllEnds(c, file, VerifyValue(c, file, pos).value.end, n - 1);
      ValueEnds(c, file, pos);
      WholeValue(c, file, pos);
      WholeAll(c, file, VerifyValue(c, file, pos).value.end, n - 1);
    }
  }

  lemma ValueEnds(c: Context, file: seq<u1>, pos: nat)
    ensures VerifyValue(c, file, pos).Some? ==> pos < |file| && pos < VerifyValue(c, file, pos).value.end
  {
  }

  lemma {:induction false} WholeAnnotation(c: Context, file: seq<u1>, pos: nat)
    requires VerifyAnnotation(c, file, pos).Some? && VerifyAnnotation(c, file, pos).value.end + 4 <= |file|
    ensures VerifyAnnotation(c, file, pos).value.whole
    decreases if pos <= |file| then |file| - pos else 0, 2
  {
    var p := Next(file, pos);
    WholeMembers(c, file, Next(file, p), Unsigned(file, p), -1);
  }

  lemma {:induction false} WholeMembers(c: Context, file: seq<u1>, pos: nat, n: nat, last: int)
    requires VerifyMembers(c, file, pos, n, last).Some? && VerifyMembers(c, file, pos, n, last).value.end + 4 <= |file|
    ensures VerifyMembers(c, file, pos, n, last).value.whole
    decreases if pos <= |file| then |file| - pos else 0, 1
  {
    hide VerifyValue, Unsigned, Valid;
    if n > 0 {
      var p := Next(file, pos);
      var q := VerifyValue(c, file, p).value.end;
      MembersEnd(c, file, q, n - 1, Unsigned(file, pos));
      ValueEnds(c, file, p);
      WholeValue(c, file, p);
      WholeMembers(c, file, q, n - 1, Unsigned(file, pos));
    }
  }

  /* ---- the second pass ---- */

  /** d is c with nothing asked of types and names: the context of the first pass. */
  ghost predicate FirstPass(c: Context, d: Context) {
    && d.strings == c.strings && d.types == c.types && d.fields == c.fields && d.methods == c.methods
    && (forall i: u4 :: d.isClass(i)) && (forall i: u4 :: d.isName(i))
  }

  /** If the cross-verify pass accepts, it has walked the same bytes as the first pass. */
  lemma {:induction false} SameValue(c: Context, d: Context, file: seq<u1>, pos: nat)
    requires FirstPass(c, d) && VerifyValue(c, file, pos).Some?
    ensures VerifyValue(d, file, pos) == VerifyValue(c, file, pos)
    decreases if pos <= |file| then |file| - pos else 0, 0
  {
    hide VerifyArray, VerifyAnnotation, Little;
    var kind := file[pos] % 0x20;
    if kind == ARRAY {
      SameArray(c, d, file, pos + 1);
    } else if kind == ANNOTATION {
      SameAnnotation(c, d, file, pos + 1);
    }
  }

  lemma {:induction false} SameArray(c: Context, d: Context, file: seq<u1>, pos: nat)
    requires FirstPass(c, d) && VerifyArray(c, file, pos).Some?
    ensures VerifyArray(d, file, pos) == VerifyArray(c, file, pos)
    decreases if pos <= |file| then |file| - pos else 0, 2
  {
    SameAll(c, d, file, Next(file, pos), Unsigned(file, pos));
  }

  lemma {:induction false} SameAll(c: Context, d: Context, file: seq<u1>, pos: nat, n: nat)
    requires FirstPass(c, d) && VerifyAll(c, file, pos, n).Some?
    ensures VerifyAll(d, file, pos, n) == VerifyAll(c, file, pos, n)
    decreases if pos <= |file| then |file| - pos else 0, 1
  {
    hide VerifyValue, FirstPass;
    if n > 0 {
      ValueEnds(c, file, pos);
      SameValue(c, d, file, pos);
      SameAll(c, d, file, VerifyValue(c, file, pos).value.end, n - 1);
    }
  }

  lemma {:induction false} SameAnnotation(c: Context, d: Context, file: seq<u1>, pos: nat)
    requires FirstPass(c, d) && VerifyAnnotation(c, file, pos).Some?
    ensures VerifyAnnotation(d, file, pos) == VerifyAnnotation(c, file, pos)
    decreases if pos <= |file| then |file| - pos else 0, 2
  {
    var p := Next(file, pos);
    SameMembers(c, d, file, Next(file, p), Unsigned(file, p), -1);
  }

  lemma {:induction false} SameMembers(c: Context, d: Context, file: seq<u1>, pos: nat, n: nat, last: int)
    requires FirstPass(c, d) && VerifyMembers(c, file, pos, n, last).Some?
    ensures VerifyMembers(d, file, pos, n, last) == VerifyMembers(c, file, pos, n, last)
    decreases if pos <= |file| then |file| - pos else 0, 1
  {
    hide VerifyValue, Unsigned, Valid;
    if n > 0 {
      var p := Next(file, pos);
      ValueEnds(c, file, p);
      SameValue(c, d, file, p);
      SameMembers(c, d, file, VerifyValue(c, file, p).value.end, n - 1, Unsigned(file, pos));
    }
  }

  /* ---- the code ---- */

  function EndOf(p: Option<Pass>): Option<nat> {
    match p
    case None => None
    case Some(q) => Some(q.end)
  }

  /** readUnsignedLittleEndian: 0, and the position as it was, if the bytes are not all there. */
  method ReadUnsignedLittleEndian(file: seq<u1>, data: nat, size: nat) returns (result: nat, ptr: nat)
    requires 1 <= size <= 4
    ensures data + size <= |file| ==> result == Little(file, data, size) && ptr == data + size
    ensures data + size > |file| ==> result == 0 && ptr == data
  {
    if data + size > |file| {
      return 0, data;
    }
    result := 0;
    var i := 0;
    var place := 1;
    ghost var whole := Little(file, data, size);
    while i < size
      invariant 0 <= i <= size && place > 0 && whole == result + place * Little(file, data + i, size - i)
    {
      Distribute(place, At(file, data + i), Little(file, data + i + 1, size - i - 1));
      result := result + At(file, data + i) * place;
      place := place * 0x100;
      i := i + 1;
    }
    ptr := data + size;
  }

  lemma Distribute(p: nat, b: nat, rest: nat)
    ensures p * (b + 0x100 * rest) == b * p + (p * 0x100) * rest
  {
  }

  /** verifyEncodedValue: the position behind the value, or none. */
  method VerifyEncodedValue(c: Context, file: seq<u1>, start: nat) returns (end: Option<nat>)
    ensures end == EndOf(VerifyValue(c, file, start))
    decreases if start <= |file| then |file| - start else 0, 0
  {
    hide Little, VerifyArray, VerifyAnnotation;
    if start + 1 > |file| {
      return None;
    }
    var valueType: int, valueArg: int := file[start] % 0x20, file[start] / 0x20;
    var data := start + 1;
    if valueType == BYTE {
      if valueArg != 0 { return None; }
      data := data + 1;
    } else if valueType == SHORT || valueType == CHAR {
      if valueArg > 1 { return None; }
      data := data + valueArg + 1;
    } else if valueType == INT || valueType == FLOAT {
      if valueArg > 3 { return None; }
      data := data + valueArg + 1;
    } else if valueType == LONG || valueType == DOUBLE {
      data := data + valueArg + 1;
    } else if STRING <= valueType <= ENUM {
      if valueArg > 3 { return None; }
      var idx, ptr := ReadUnsignedLittleEndian(file, data, valueArg + 1);
      if idx >= Limit(c, valueType) { return None; }
      data := ptr;
    } else if valueType == ARRAY {
      if valueArg != 0 { return None; }
      end := VerifyEncodedArray(c, file, data);
      return;
    } else if valueType == ANNOTATION {
      if valueArg != 0 { return None; }
      end := VerifyEncodedAnnotation(c, file, data);
      return;
    } else if valueType == NULL {
      if valueArg != 0 { return None; }
    } else if valueType == BOOLEAN {
      if valueArg > 1 { return None; }
    } else {
      return None;
    }
    end := Some(data);
  }

  /** verifyEncodedArray. */
  method VerifyEncodedArray(c: Context, file: seq<u1>, start: nat) returns (end: Option<nat>)
    ensures end == EndOf(VerifyArray(c, file, start))
    decreases if start <= |file| then |file| - start else 0, 2
  {
    hide VerifyValue;
    var size, data, okay := ReadAndVerifyUnsigned(file, start, true);
    if !okay {
      return None;
    }
    ghost var all := VerifyAll(c, file, data, size);
    var left: nat := size;
    while left > 0
      invariant data > start && EndOf(all) == EndOf(VerifyAll(c, file, data, left))
      decreases left
    {
      ValueEnds(c, file, data);
      var next := VerifyEncodedValue(c, file, data);
      if next == None {
        return None;
      }
      data, left := next.value, left - 1;
    }
    end := Some(data);
  }

  /** verifyEncodedAnnotation. */
  method VerifyEncodedAnnotation(c: Context, file: seq<u1>, start: nat) returns (end: Option<nat>)
    ensures end == EndOf(VerifyAnnotation(c, file, start))
    decreases if start <= |file| then |file| - start else 0, 2
  {
    hide VerifyValue, Unsigned, Valid, Size;
    var idx, data, okay := ReadAndVerifyUnsigned(file, start, true);
    if !okay {
      return None;
    }
    if idx >= c.types {
      return None;
    }
    if !c.isClass(idx) {
      return None;
    }
    var size;
    size, data, okay := ReadAndVerifyUnsigned(file, data, okay);
    if !okay {
      return None;
    }
    ghost var all := VerifyMembers(c, file, data, size, -1);
    var left: nat := size;
    var lastIdx: u4 := 0;
    var first := true;
    while left > 0
      invariant okay && data > start
      invariant EndOf(all) == EndOf(VerifyMembers(c, file, data, left, if first then -1 else lastIdx))
      decreases left
    {
      idx, data, okay := ReadAndVerifyUnsigned(file, data, okay);
      if !okay {
        return None;
      }
      if idx >= c.strings {
        return None;
      }
      if !c.isName(idx) {
        return None;
      }
      if first {
        first := false;
      } else if lastIdx >= idx {
        return None;
      }
      ValueEnds(c, file, data);
      var next := VerifyEncodedValue(c, file, data);
      if next == None {
        return None;
      }
      lastIdx := idx;
      data, left := next.value, left - 1;
    }
    end := Some(data);
  }
}
