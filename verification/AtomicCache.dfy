/**
 AtomicCache: threads that look up and fill entries without locks. Every load, store and
 compare-and-swap of a shared field is one step; the steps of all threads interleave in any order.
 */
module AtomicCache {
  type u4 = x: int | 0 <= x < 0x1_0000_0000

  datatype Keys = Keys(key1: u4, key2: u4)

  /** The function the cache speeds up, ATOMIC_CACHE_CALC. */
  type Calc = Keys -> u4

  /** The version word: a count and, in its top bit, the lock flag. The count does not wrap here. */
  datatype Version = Version(count: nat, locked: bool)

  datatype Entry = Entry(keys: Keys, value: u4, version: Version)

  /**
   Where a thread is: what it does next, with its local variables. The first half is the macro
   ATOMIC_CACHE_LOOKUP, the second dvmUpdateAtomicCache.
   */
  datatype Thread =
    | Idle
    | LoadVersion(k: Keys)
    | LoadKey1(k: Keys, first: Version)
    | LoadKey2(k: Keys, first: Version)
    | LoadValue(k: Keys, first: Version)
    | LoadAgain(k: Keys, first: Version, value: u4)
    | TakeLock(k: Keys, first: Version)
    | BeginWrite(k: Keys, first: Version)
    | StoreKey1(k: Keys, first: Version)
    | StoreKey2(k: Keys, first: Version)
    | StoreValue(k: Keys, first: Version)
    | EndWrite(k: Keys, first: Version)
    | DropLock(k: Keys, first: Version)
    | Return(k: Keys, value: u4, hit: bool)
    | Abort

  datatype Cache = Cache(entries: seq<Entry>, threads: seq<Thread>)

  /** One step of thread `t`; `k` is what an idle thread starts to look up. */
  datatype Step = Step(t: nat, k: Keys)

  /** `x ^ y` and `x & y`, bit by bit. */
  function Xor(x: nat, y: nat): nat {
    if x == 0 && y == 0 then 0 else (x + y) % 2 + 2 * Xor(x / 2, y / 2)
  }

  function And(x: nat, y: nat): (r: nat)
    ensures r <= y
  {
    if x == 0 || y == 0 then 0 else (if x % 2 == 1 && y % 2 == 1 then 1 else 0) + 2 * And(x / 2, y / 2)
  }

  /** The hash of the macro, for a cache of n entries. */
  function Slot(k: Keys, n: nat): (i: nat)
    requires n > 0
    ensures i < n
  {
    And(Xor(k.key1 / 4, k.key2), n - 1)
  }

  const EMPTY: Entry := Entry(Keys(0, 0), 0, Version(0, false))

  /** What calloc leaves. */
  ghost predicate Start(c: Cache) {
    && c.entries != []
    && (forall i | 0 <= i < |c.entries| :: c.entries[i] == EMPTY)
    && (forall t | 0 <= t < |c.threads| :: c.threads[t] == Idle)
  }

  predicate CanStep(c: Cache, s: Step) {
    c.entries != [] && s.t < |c.threads| && !c.threads[s.t].Abort?
  }

  function Odd(v: Version): bool {
    v.count % 2 == 1
  }

  function Locked(v: Version): Version {
    v.(locked := true)
  }

  /** newVersion, the version while the fields change. */
  function Writing(first: Version): Version {
    Version(first.count + 1, true)
  }

  function Written(first: Version): Version {
    Version(first.count + 2, true)
  }

  /** The macro: loads only. */
  function Look(f: Calc, th: Thread, e: Entry, next: Keys): Thread
    requires !th.Abort? && !Updates(th)
  {
    match th
    case Idle => LoadVersion(next)
    case LoadVersion(k) => LoadKey1(k, e.version)
    case LoadKey1(k, first) => if e.keys.key1 == k.key1 then LoadKey2(k, first) else TakeLock(k, first)
    case LoadKey2(k, first) => if e.keys.key2 == k.key2 then LoadValue(k, first) else TakeLock(k, first)
    case LoadValue(k, first) => LoadAgain(k, first, e.value)
    case LoadAgain(k, first, value) =>
      if Odd(first) || first != e.version then Return(k, f(k), false) else Return(k, value, true)
    case Return(_, _, _) => Idle
  }

  /** dvmUpdateAtomicCache: where the thread goes, and what becomes of the entry. */
  function Update(f: Calc, th: Thread, e: Entry): (Thread, Entry)
    requires Updates(th)
  {
    match th
    case TakeLock(k, first) =>
      if first.locked || e.version != first then (Return(k, f(k), false), e)
      else (BeginWrite(k, first), e.(version := Locked(first)))
    case BeginWrite(k, first) => (StoreKey1(k, first), e.(version := Writing(first)))
    case StoreKey1(k, first) => (StoreKey2(k, first), e.(keys := e.keys.(key1 := k.key1)))
    case StoreKey2(k, first) => (StoreValue(k, first), e.(keys := e.keys.(key2 := k.key2)))
    case StoreValue(k, first) => (EndWrite(k, first), e.(value := f(k)))
    case EndWrite(k, first) => (DropLock(k, first), e.(version := Written(first)))
    case DropLock(k, first) =>
      if e.version != Written(first) then (Abort, e)
      else (Return(k, f(k), false), e.(version := Written(first).(locked := false)))
  }

  predicate Updates(th: Thread) {
    th.TakeLock? || Holds(th)
  }

  /** The thread holds the lock of its entry. */
  predicate Holds(th: Thread) {
    th.BeginWrite? || th.StoreKey1? || th.StoreKey2? || th.StoreValue? || th.EndWrite? || th.DropLock?
  }

  function Next(f: Calc, c: Cache, s: Step): Cache
    requires CanStep(c, s)
  {
    var th := c.threads[s.t];
    if Updates(th) then
      var i := Slot(th.k, |c.entries|);
      var (th', e) := Update(f, th, c.entries[i]);
      c.(threads := c.threads[s.t := th'], entries := c.entries[i := e])
    else
      c.(threads := c.threads[s.t := Look(f, th, EntryOf(c, th), s.k)])
  }

  /** The entry a thread works on. */
  function EntryOf(c: Cache, th: Thread): Entry
    requires c.entries != []
  {
    if th.Idle? || th.Abort? then EMPTY else c.entries[Slot(th.k, |c.entries|)]
  }

  predicate CanRun(f: Calc, c: Cache, steps: seq<Step>)
    decreases |steps|
  {
    steps == [] || (CanStep(c, steps[0]) && CanRun(f, Next(f, c, steps[0]), steps[1..]))
  }

  function Run(f: Calc, c: Cache, steps: seq<Step>): Cache
    requires CanRun(f, c, steps)
    decreases |steps|
  {
    if steps == [] then c else Run(f, Next(f, c, steps[0]), steps[1..])
  }

  /* ---- the invariant ---- */

  /** The entry answers for its keys, or nobody has filled it. */
  predicate Right(f: Calc, e: Entry) {
    e.value == f(e.keys) || (e.keys == EMPTY.keys && e.value == EMPTY.value)
  }

  /** Nobody is changing the fields while the count is even, and it is even while nobody holds the lock. */
  predicate Sound(f: Calc, e: Entry) {
    (!e.version.locked ==> !Odd(e.version)) && (!Odd(e.version) ==> Right(f, e))
  }

  /** A writer and its entry. */
  predicate WriterOk(f: Calc, th: Thread, e: Entry)
    requires Holds(th)
  {
    && e.version.locked && !th.first.locked && !Odd(th.first)
    && e.version.count == th.first.count + (if th.BeginWrite? then 0 else if th.DropLock? then 2 else 1)
    && (th.StoreKey2? || th.StoreValue? || th.EndWrite? ==> e.keys.key1 == th.k.key1)
    && (th.StoreValue? || th.EndWrite? ==> e.keys.key2 == th.k.key2)
    && (th.EndWrite? ==> e.value == f(th.k))
  }

  predicate Reads(th: Thread) {
    th.LoadKey1? || th.LoadKey2? || th.LoadValue? || th.LoadAgain? || th.TakeLock?
  }

  /** As long as the count is the even one a reader has seen first, what it has read is still there. */
  predicate ReaderOk(th: Thread, e: Entry)
    requires Reads(th)
  {
    && th.first.count <= e.version.count
    && (!Odd(th.first) && th.first.count == e.version.count ==>
          && (th.LoadKey2? || th.LoadValue? || th.LoadAgain? ==> e.keys.key1 == th.k.key1)
          && (th.LoadValue? || th.LoadAgain? ==> e.keys.key2 == th.k.key2)
          && (th.LoadAgain? ==> e.value == th.value))
  }

  /** A thread that has returned has the right answer, or the one an entry has before anybody fills it. */
  predicate Answered(f: Calc, th: Thread)
    requires th.Return?
  {
    th.value == f(th.k) || (th.hit && th.k == EMPTY.keys && th.value == EMPTY.value)
  }

  predicate ThreadOk(f: Calc, th: Thread, e: Entry) {
    && !th.Abort?
    && (Holds(th) ==> WriterOk(f, th, e))
    && (Reads(th) ==> ReaderOk(th, e))
    && (th.Return? ==> Answered(f, th))
  }

  ghost predicate Writer(c: Cache, i: nat, t: nat) {
    c.entries != [] && t < |c.threads| && Holds(c.threads[t]) && Slot(c.threads[t].k, |c.entries|) == i
  }

  ghost predicate Inv(f: Calc, c: Cache) {
    && c.entries != []
    && (forall i | 0 <= i < |c.entries| :: Sound(f, c.entries[i]))
    && (forall t | 0 <= t < |c.threads| :: ThreadOk(f, c.threads[t], EntryOf(c, c.threads[t])))
    && (forall i: nat, t: nat, u: nat :: Writer(c, i, t) && Writer(c, i, u) ==> t == u)
    && (forall i | 0 <= i < |c.entries| && c.entries[i].version.locked :: exists t: nat :: Writer(c, i, t))
  }

  lemma StartInv(f: Calc, c: Cache)
    requires Start(c)
    ensures Inv(f, c)
  {
  }

  lemma LookKeeps(f: Calc, th: Thread, e: Entry, next: Keys, e': Entry)
    requires !Updates(th) && ThreadOk(f, th, e) && Sound(f, e)
    requires !th.Idle? && !th.Return? ==> e' == e
    ensures ThreadOk(f, Look(f, th, e, next), e')
  {
  }

  /** The lock is taken free; dropping it never fails. */
  lemma UpdateKeeps(f: Calc, th: Thread, e: Entry)
    requires Updates(th) && ThreadOk(f, th, e) && Sound(f, e)
    ensures var (th', e') := Update(f, th, e);
        ThreadOk(f, th', e') &&
        (th.TakeLock? && Holds(th') ==> !e.version.locked)
  {
  }

  lemma UpdateSound(f: Calc, th: Thread, e: Entry)
    requires Updates(th) && ThreadOk(f, th, e) && Sound(f, e)
    ensures Sound(f, Update(f, th, e).1)
  {
    if th.EndWrite? {
      assert e.keys == th.k;
    }
  }

  /** Counts only grow, and only the holder of the lock changes anything; the fields, only while the count is odd. */
  lemma UpdateEntry(f: Calc, th: Thread, e: Entry)
    requires Updates(th) && ThreadOk(f, th, e)
    ensures var (th', e') := Update(f, th, e);
      && e.version.count <= e'.version.count
      && (e' != e ==> Holds(th) || !e.version.locked)
      && (e.keys != e'.keys || e.value != e'.value ==> Odd(e.version))
  {
  }

  /** What an update leaves for any other thread at the same entry. */
  lemma UpdateOther(f: Calc, th: Thread, e: Entry, o: Thread)
    requires Updates(th) && ThreadOk(f, th, e) && ThreadOk(f, o, e) && !(Holds(th) && Holds(o))
    ensures ThreadOk(f, o, Update(f, th, e).1)
  {
    UpdateEntry(f, th, e);
    hide Update;
  }

  lemma NextThread(f: Calc, c: Cache, s: Step, t: nat)
    requires Inv(f, c) && CanStep(c, s) && t < |c.threads|
    ensures var d := Next(f, c, s); ThreadOk(f, d.threads[t], EntryOf(d, d.threads[t]))
  {
    hide Look, Update, ThreadOk, Sound;
    var th, o := c.threads[s.t], c.threads[t];
    var e, d := EntryOf(c, th), Next(f, c, s);
    assert ThreadOk(f, th, e) && ThreadOk(f, o, EntryOf(c, o));
    if Updates(th) {
      assert Sound(f, e);
      UpdateKeeps(f, th, e);
      UpdateStays(f, th, e);
      NextIs(f, c, s);
      if t != s.t && EntryOf(d, o) != EntryOf(c, o) {
        var i := Slot(th.k, |c.entries|);
        assert Writer(c, i, s.t) && Writer(c, i, t) ==> s.t == t;
        UpdateOther(f, th, e, o);
        assert EntryOf(d, o) == Update(f, th, e).1;
      }
    } else if t == s.t {
      EmptySound(f);
      LookStays(f, th, e, s.k);
      LookKeeps(f, th, e, s.k, EntryOf(d, d.threads[t]));
    }
  }

  lemma NextIs(f: Calc, c: Cache, s: Step)
    requires CanStep(c, s) && Updates(c.threads[s.t])
    ensures var th, d := c.threads[s.t], Next(f, c, s); var i := Slot(th.k, |c.entries|);
      && EntryOf(c, th) == c.entries[i]
      && d.threads == c.threads[s.t := Update(f, th, c.entries[i]).0]
      && d.entries == c.entries[i := Update(f, th, c.entries[i]).1]
  {
    hide Update;
  }

  lemma EmptySound(f: Calc)
    ensures Sound(f, EMPTY)
  {
  }

  /** A thread keeps its keys, and so its entry, until it returns. */
  lemma UpdateStays(f: Calc, th: Thread, e: Entry)
    requires Updates(th) && ThreadOk(f, th, e)
    ensures var th' := Update(f, th, e).0; !th'.Idle? && !th'.Abort? && th'.k == th.k
  {
  }

  lemma LookStays(f: Calc, th: Thread, e: Entry, next: Keys)
    requires !Updates(th) && !th.Abort?
    ensures var th' := Look(f, th, e, next);
      !th'.Abort? && !Holds(th') && (th'.Idle? <==> th.Return?) &&
          (th'.Idle? || (if th.Idle? then th' == LoadVersion(next) else th'.k == th.k))
  {
  }

  lemma NextWriters(f: Calc, c: Cache, s: Step)
    requires Inv(f, c) && CanStep(c, s)
    ensures var d := Next(f, c, s); forall i: nat, t: nat, u: nat :: Writer(d, i, t) && Writer(d, i, u) ==> t == u
  {
    hide Look, Update, Slot, Sound;
    var th := c.threads[s.t];
    var e, d := EntryOf(c, th), Next(f, c, s);
    assert ThreadOk(f, th, e);
    if Updates(th) {
      assert Sound(f, e);
      UpdateKeeps(f, th, e);
      UpdateStays(f, th, e);
      forall i: nat, t: nat | Writer(d, i, t)
        ensures t == s.t || Writer(c, i, t)
        ensures t == s.t && !Writer(c, i, s.t) ==> !c.entries[i].version.locked
      {
      }
      forall i: nat, t: nat, u: nat | Writer(d, i, t) && Writer(d, i, u)
        ensures t == u
      {
        if Writer(c, i, t) {
          HeldLock(f, c, i, t);
        }
        if Writer(c, i, u) {
          HeldLock(f, c, i, u);
        }
      }
    } else {
      LookStays(f, th, e, s.k);
      assert forall i: nat, t: nat :: Writer(d, i, t) ==> Writer(c, i, t);
    }
  }

  /** A thread that does not end up with the lock has not taken it, or leaves it open. */
  lemma UpdateOpens(f: Calc, th: Thread, e: Entry)
    requires Updates(th) && ThreadOk(f, th, e)
    ensures var (th', e') := Update(f, th, e); !Holds(th') ==> if Holds(th) then !e'.version.locked else e' == e
  {
  }

  lemma NextLocks(f: Calc, c: Cache, s: Step, i: nat)
    requires Inv(f, c) && CanStep(c, s) && i < |Next(f, c, s).entries| && Next(f, c, s).entries[i].version.locked
    ensures exists t: nat :: Writer(Next(f, c, s), i, t)
  {
    hide Look, Update, Slot, Sound, ThreadOk;
    var th := c.threads[s.t];
    var e, d := EntryOf(c, th), Next(f, c, s);
    assert ThreadOk(f, th, e);
    if Updates(th) {
      NextIs(f, c, s);
      UpdateStays(f, th, e);
      UpdateOpens(f, th, e);
      if i == Slot(th.k, |c.entries|) && Holds(Update(f, th, e).0) {
        assert Writer(d, i, s.t);
      } else {
        var t: nat :| Writer(c, i, t);
        assert Writer(d, i, t);
      }
    } else {
      NotAborted(f, th, e);
      LookStays(f, th, e, s.k);
      var t: nat :| Writer(c, i, t);
      assert Writer(d, i, t);
    }
  }

  lemma NotAborted(f: Calc, th: Thread, e: Entry)
    requires ThreadOk(f, th, e)
    ensures !th.Abort?
  {
  }

  lemma {:induction false} SizeAlong(f: Calc, c: Cache, steps: seq<Step>)
    requires CanRun(f, c, steps)
    ensures |Run(f, c, steps).entries| == |c.entries| && |Run(f, c, steps).threads| == |c.threads|
    decreases |steps|
  {
    if steps != [] {
      SizeAlong(f, Next(f, c, steps[0]), steps[1..]);
    }
  }

  lemma HeldLock(f: Calc, c: Cache, i: nat, t: nat)
    requires Inv(f, c) && Writer(c, i, t)
    ensures i < |c.entries| && c.entries[i].version.locked
  {
    assert ThreadOk(f, c.threads[t], EntryOf(c, c.threads[t]));
  }

  lemma NextKeeps(f: Calc, c: Cache, s: Step)
    requires Inv(f, c) && CanStep(c, s)
    ensures Inv(f, Next(f, c, s))
  {
    var d := Next(f, c, s);
    forall t | 0 <= t < |d.threads|
      ensures ThreadOk(f, d.threads[t], EntryOf(d, d.threads[t]))
    {
      NextThread(f, c, s, t);
    }
    NextWriters(f, c, s);
    forall i | 0 <= i < |d.entries| && d.entries[i].version.locked
      ensures exists t: nat :: Writer(d, i, t)
    {
      NextLocks(f, c, s, i);
    }
    hide Look, Update, ThreadOk, Sound;
    var th := c.threads[s.t];
    assert ThreadOk(f, th, EntryOf(c, th));
    if Updates(th) {
      UpdateSound(f, th, EntryOf(c, th));
    }
  }

  lemma {:induction false} InvAlong(f: Calc, c: Cache, steps: seq<Step>)
    requires Inv(f, c) && CanRun(f, c, steps)
    ensures Inv(f, Run(f, c, steps))
    decreases |steps|
  {
    if steps != [] {
      hide Inv, Next;
      NextKeeps(f, c, steps[0]);
      InvAlong(f, Next(f, c, steps[0]), steps[1..]);
    }
  }

  /* ---- what holds in every state of every run ---- */

  /**
   Every hit returns what the calculation would, for any number of threads and any interleaving. The
   exception are two zero keys: they match an entry that nobody has filled, whose value is 0.
   */
  lemma HitsAreRight(f: Calc, c: Cache, steps: seq<Step>, t: nat)
    requires Start(c) && CanRun(f, c, steps) && t < |Run(f, c, steps).threads|
    ensures var th := Run(f, c, steps).threads[t];
      th.Return? ==> th.value == f(th.k) || (th.hit && th.k == Keys(0, 0) && th.value == 0)
  {
    StartInv(f, c);
    InvAlong(f, c, steps);
    var d := Run(f, c, steps);
    assert ThreadOk(f, d.threads[t], EntryOf(d, d.threads[t]));
  }

  /** At most one thread writes an entry; while none does, the version is unlocked and even. */
  lemma OneWriter(f: Calc, c: Cache, steps: seq<Step>, i: nat)
    requires Start(c) && CanRun(f, c, steps) && i < |c.entries|
    ensures var d := Run(f, c, steps);
      && |d.entries| == |c.entries|
      && (forall t: nat, u: nat :: Writer(d, i, t) && Writer(d, i, u) ==> t == u)
      && (d.entries[i].version.locked <==> exists t: nat :: Writer(d, i, t))
      && (!d.entries[i].version.locked ==> !Odd(d.entries[i].version))
  {
    StartInv(f, c);
    InvAlong(f, c, steps);
    SizeAlong(f, c, steps);
    var d := Run(f, c, steps);
    forall t: nat | Writer(d, i, t)
      ensures d.entries[i].version.locked
    {
      HeldLock(f, d, i, t);
    }
  }

  /** The abort behind the last compare-and-swap is never reached, and the assertion on the first one holds. */
  lemma NeverAborts(f: Calc, c: Cache, steps: seq<Step>, t: nat)
    requires Start(c) && CanRun(f, c, steps) && t < |Run(f, c, steps).threads|
    ensures var th := Run(f, c, steps).threads[t];
      !th.Abort? && (th.BeginWrite? ==> !Odd(th.first))
  {
    StartInv(f, c);
    InvAlong(f, c, steps);
    var d := Run(f, c, steps);
    assert ThreadOk(f, d.threads[t], EntryOf(d, d.threads[t]));
  }

  ghost predicate Correct(f: Calc, c: Cache) {
    forall t | 0 <= t < |c.threads| && c.threads[t].Return? :: c.threads[t].value == f(c.threads[t].k)
  }

  /** Every answer in every run is what the calculation gives. */
  ghost predicate AlwaysCorrect(f: Calc, c: Cache) {
    forall steps: seq<Step> | CanRun(f, c, steps) :: Correct(f, Run(f, c, steps))
  }

  /** Thread 0 on its way through a lookup of two zero keys, and the cache with nothing else changed. */
  function Zero(i: nat): Thread {
    var k, v := Keys(0, 0), Version(0, false);
    match i
    case 0 => Idle
    case 1 => LoadVersion(k)
    case 2 => LoadKey1(k, v)
    case 3 => LoadKey2(k, v)
    case 4 => LoadValue(k, v)
    case 5 => LoadAgain(k, v, 0)
    case _ => Return(k, 0, true)
  }

  function WithZero(c: Cache, i: nat): Cache
    requires c.threads != []
  {
    c.(threads := c.threads[0 := Zero(i)])
  }

  function Zeros(n: nat): seq<Step> {
    if n == 0 then [] else [Step(0, Keys(0, 0))] + Zeros(n - 1)
  }

  lemma ZeroStep(f: Calc, c: Cache, i: nat)
    requires Start(c) && c.threads != [] && i < 6
    ensures CanStep(WithZero(c, i), Step(0, Keys(0, 0)))
    ensures Next(f, WithZero(c, i), Step(0, Keys(0, 0))) == WithZero(c, i + 1)
  {
    hide Slot, Update;
  }

  /** A lookup of two zero keys in a fresh cache is a hit with value 0. */
  lemma {:induction false} ZeroHit(f: Calc, c: Cache, i: nat)
    requires Start(c) && c.threads != [] && i <= 6
    ensures CanRun(f, WithZero(c, i), Zeros(6 - i)) && Run(f, WithZero(c, i), Zeros(6 - i)) == WithZero(c, 6)
    decreases 6 - i
  {
    if i < 6 {
      hide Start, CanStep, Next, WithZero;
      ZeroStep(f, c, i);
      ZeroHit(f, c, i + 1);
      assert Zeros(6 - i)[1..] == Zeros(5 - i);
    }
  }

  /** The cache agrees with the calculation on all keys exactly if the calculation gives 0 for two zero keys. */
  lemma CorrectIffZeroAtZero(f: Calc, c: Cache)
    requires Start(c) && c.threads != []
    ensures AlwaysCorrect(f, c) <==> f(Keys(0, 0)) == 0
  {
    hide Start, CanRun, Run;
    if AlwaysCorrect(f, c) {
      ZeroHit(f, c, 0);
      Fresh(c);
      assert Correct(f, WithZero(c, 6));
      assert WithZero(c, 6).threads[0] == Zero(6);
    }
    if f(Keys(0, 0)) == 0 {
      forall steps: seq<Step> | CanRun(f, c, steps)
        ensures Correct(f, Run(f, c, steps))
      {
        forall t | 0 <= t < |Run(f, c, steps).threads|
          ensures var th := Run(f, c, steps).threads[t]; th.Return? ==> th.value == f(th.k)
        {
          HitsAreRight(f, c, steps, t);
        }
      }
    }
  }

  lemma Fresh(c: Cache)
    requires Start(c) && c.threads != []
    ensures WithZero(c, 0) == c
  {
  }

  /* ---- without interference ---- */

  /** n steps of one thread while the others rest; it stays where it returns. */
  function Alone(f: Calc, th: Thread, e: Entry, n: nat): (Thread, Entry)
    decreases n
  {
    if n == 0 || th.Return? || th.Idle? || th.Abort? then (th, e)
    else if Updates(th) then Alone(f, Update(f, th, e).0, Update(f, th, e).1, n - 1)
    else Alone(f, Look(f, th, e, th.k), e, n - 1)
  }

  lemma AloneWrites(f: Calc, k: Keys, e: Entry)
    requires !e.version.locked
    ensures Alone(f, TakeLock(k, e.version), e, 7) ==
      (Return(k, f(k), false), Entry(k, f(k), Version(e.version.count + 2, false)))
  {
    hide Alone;
    var v := e.version;
    var e1 := e.(version := Locked(v));
    var e2 := e.(version := Writing(v));
    var e3 := e2.(keys := Keys(k.key1, e.keys.key2));
    var e4 := e2.(keys := k);
    var e5 := e4.(value := f(k));
    var e6 := e5.(version := Written(v));
    AloneUpdates(f, TakeLock(k, v), e, 6);
    AloneUpdates(f, BeginWrite(k, v), e1, 5);
    AloneUpdates(f, StoreKey1(k, v), e2, 4);
    AloneUpdates(f, StoreKey2(k, v), e3, 3);
    AloneUpdates(f, StoreValue(k, v), e4, 2);
    AloneUpdates(f, EndWrite(k, v), e5, 1);
    AloneUpdates(f, DropLock(k, v), e6, 0);
    AloneRests(f, Return(k, f(k), false), e6.(version := Written(v).(locked := false)));
  }

  lemma AloneUpdates(f: Calc, th: Thread, e: Entry, n: nat)
    requires Updates(th)
    ensures Alone(f, th, e, n + 1) == Alone(f, Update(f, th, e).0, Update(f, th, e).1, n)
  {
  }

  lemma AloneRests(f: Calc, th: Thread, e: Entry)
    ensures Alone(f, th, e, 0) == (th, e)
  {
  }

  /** A miss that nobody interferes with leaves the answer behind. */
  lemma MissFills(f: Calc, k: Keys, e: Entry)
    requires !e.version.locked && e.keys != k
    ensures Alone(f, LoadVersion(k), e, if e.keys.key1 == k.key1 then 10 else 9) ==
      (Return(k, f(k), false), Entry(k, f(k), Version(e.version.count + 2, false)))
  {
    AloneWrites(f, k, e);
    hide Update;
    if e.keys.key1 == k.key1 {
      assert Alone(f, LoadKey2(k, e.version), e, 8) == Alone(f, TakeLock(k, e.version), e, 7);
      assert Alone(f, LoadKey1(k, e.version), e, 9) == Alone(f, LoadKey2(k, e.version), e, 8);
    } else {
      assert Alone(f, LoadKey1(k, e.version), e, 8) == Alone(f, TakeLock(k, e.version), e, 7);
    }
  }

  /** The next lookup of the same keys is a hit, if nobody interferes. */
  lemma FilledHits(f: Calc, k: Keys, e: Entry)
    requires !Odd(e.version) && e.keys == k
    ensures Alone(f, LoadVersion(k), e, 5) == (Return(k, e.value, true), e)
  {
    hide Update;
    assert Alone(f, LoadAgain(k, e.version, e.value), e, 1) == (Return(k, e.value, true), e);
    assert Alone(f, LoadValue(k, e.version), e, 2) == Alone(f, LoadAgain(k, e.version, e.value), e, 1);
    assert Alone(f, LoadKey2(k, e.version), e, 3) == Alone(f, LoadValue(k, e.version), e, 2);
    assert Alone(f, LoadKey1(k, e.version), e, 4) == Alone(f, LoadKey2(k, e.version), e, 3);
  }
}
