/** Open addressing with linear probing, as the class and zip tables of libdex do it. */
module Probing {
  import opened Leb128

  datatype Slot = Empty | Full(key: seq<u1>, ref: int)

  /** `hash * 31 + c` over a string, from `start` on, in 32-bit words. */
  function Hash(start: u4, key: seq<u1>): u4 {
    if key == [] then start else (Hash(start, key[..|key| - 1]) * 31 + key[|key| - 1]) % 0x1_0000_0000
  }

  function Home(start: u4, key: seq<u1>, n: nat): (i: nat)
    requires n > 0
    ensures i < n
  {
    Hash(start, key) % n
  }

  /** Steps from slot i forward to slot j. */
  function Dist(n: nat, i: nat, j: nat): (d: nat)
    requires i < n && j < n
    ensures d < n
  {
    if j >= i then j - i else j + n - i
  }

  /** The slots before i on the way from a home are full. */
  predicate Reached(t: seq<Slot>, home: nat, i: nat)
    requires home < |t| && i < |t|
  {
    forall j | 0 <= j < |t| && Dist(|t|, home, j) < Dist(|t|, home, i) :: t[j].Full?
  }

  /** No full slot is cut off from the home of its key. */
  predicate Chained(start: u4, t: seq<Slot>) {
    forall i | 0 <= i < |t| && t[i].Full? :: Reached(t, Home(start, t[i].key, |t|), i)
  }

  /** The first slot with a key on the way from its home. */
  predicate Found(start: u4, t: seq<Slot>, key: seq<u1>, i: nat)
    requires i < |t|
  {
    && t[i].Full? && t[i].key == key && Reached(t, Home(start, key, |t|), i)
    && forall j | 0 <= j < |t| && Dist(|t|, Home(start, key, |t|), j) < Dist(|t|, Home(start, key, |t|), i) ::
        t[j].key != key
  }

  /** The table holds the map m: every key is found where its first entry was put. */
  ghost predicate Holds(start: u4, t: seq<Slot>, m: map<seq<u1>, int>) {
    && Chained(start, t)
    && (forall i | 0 <= i < |t| && t[i].Full? :: t[i].key in m)
    && (forall key | key in m :: exists i :: 0 <= i < |t| && Found(start, t, key, i) && t[i] == Full(key, m[key]))
  }

  /** Adding an entry whose key is there already changes nothing. */
  function Added(m: map<seq<u1>, int>, key: seq<u1>, ref: int): map<seq<u1>, int> {
    if key in m then m else m[key := ref]
  }

  lemma FoundIsFirst(start: u4, t: seq<Slot>, key: seq<u1>, i: nat, j: nat)
    requires i < |t| && j < |t| && Found(start, t, key, i) && Found(start, t, key, j)
    ensures i == j
  {
  }

  /** A new entry goes to the first empty slot on the way from its home. */
  lemma AddHolds(start: u4, t: seq<Slot>, m: map<seq<u1>, int>, key: seq<u1>, ref: int, s: nat)
    requires Holds(start, t, m) && s < |t| && t[s].Empty? && Reached(t, Home(start, key, |t|), s)
    ensures Holds(start, t[s := Full(key, ref)], Added(m, key, ref))
  {
    hide Home, Dist, Found, Reached;
    var u := t[s := Full(key, ref)];
    var v := Added(m, key, ref);
    forall i | 0 <= i < |u| && u[i].Full?
      ensures Reached(u, Home(start, u[i].key, |u|), i)
    {
      StillReached(t, s, u[s], Home(start, u[i].key, |u|), i);
    }
    forall k | k in v
      ensures exists i :: 0 <= i < |u| && Found(start, u, k, i) && u[i] == Full(k, v[k])
    {
      if k in m {
        var i :| 0 <= i < |t| && Found(start, t, k, i) && t[i] == Full(k, m[k]);
        StillFound(start, t, s, u[s], k, i);
        assert Found(start, u, k, i);
      } else {
        FoundNew(start, t, s, u[s]);
        assert Found(start, u, key, s);
      }
    }
  }

  lemma StillReached(t: seq<Slot>, s: nat, x: Slot, home: nat, i: nat)
    requires s < |t| && x.Full? && home < |t| && i < |t| && Reached(t, home, i)
    ensures Reached(t[s := x], home, i)
  {
    hide Dist;
  }

  lemma StillFound(start: u4, t: seq<Slot>, s: nat, x: Slot, key: seq<u1>, i: nat)
    requires s < |t| && t[s].Empty? && x.Full? && i < |t| && Found(start, t, key, i)
    ensures i != s && Found(start, t[s := x], key, i)
  {
    hide Dist, Home;
  }

  lemma FoundNew(start: u4, t: seq<Slot>, s: nat, x: Slot)
    requires s < |t| && x.Full? && Reached(t, Home(start, x.key, |t|), s)
    requires forall i | 0 <= i < |t| && t[i].Full? :: t[i].key != x.key
    ensures Found(start, t[s := x], x.key, s)
  {
    hide Dist, Home;
  }

  lemma NoneHolds(start: u4, t: seq<Slot>)
    requires forall i | 0 <= i < |t| :: t[i].Empty?
    ensures Holds(start, t, map[])
  {
  }

  /** A search that comes to an empty slot has not missed anything. */
  lemma Absent(start: u4, t: seq<Slot>, m: map<seq<u1>, int>, key: seq<u1>, s: nat)
    requires Holds(start, t, m) && s < |t| && t[s].Empty?
    requires forall j | 0 <= j < |t| && Dist(|t|, Home(start, key, |t|), j) < Dist(|t|, Home(start, key, |t|), s) ::
      t[j].Full? && t[j].key != key
    ensures key !in m
  {
    hide Hash;
    if key in m {
      var i :| 0 <= i < |t| && Found(start, t, key, i) && t[i] == Full(key, m[key]);
    }
  }

  lemma Present(start: u4, t: seq<Slot>, m: map<seq<u1>, int>, key: seq<u1>, i: nat)
    requires Holds(start, t, m) && i < |t| && Found(start, t, key, i)
    ensures key in m && t[i] == Full(key, m[key])
  {
    var j :| 0 <= j < |t| && Found(start, t, key, j) && t[j] == Full(key, m[key]);
    FoundIsFirst(start, t, key, i, j);
  }

  /** One step forward, as the masked increment takes it. */
  lemma Onward(n: nat, home: nat, i: nat)
    requires home < n && i < n
    ensures var j := (i + 1) % n; j < n && (Dist(n, home, i) < n - 1 ==> Dist(n, home, j) == Dist(n, home, i) + 1)
  {
  }

  /** The full slots of a table. */
  function Count(t: seq<Slot>): nat {
    if t == [] then 0 else Count(t[..|t| - 1]) + if t[|t| - 1].Full? then 1 else 0
  }

  lemma {:induction false} SomeEmpty(t: seq<Slot>)
    requires Count(t) < |t|
    ensures exists i :: 0 <= i < |t| && t[i].Empty?
  {
    if t[|t| - 1].Full? {
      SomeEmpty(t[..|t| - 1]);
      var i :| 0 <= i < |t| - 1 && t[..|t| - 1][i].Empty?;
      assert t[i].Empty?;
    }
  }

  lemma {:induction false} CountAdd(t: seq<Slot>, s: nat, x: Slot)
    requires s < |t| && t[s].Empty? && x.Full?
    ensures Count(t[s := x]) == Count(t) + 1
  {
    var u := t[s := x];
    if s == |t| - 1 {
      assert u[..|t| - 1] == t[..|t| - 1];
    } else {
      CountAdd(t[..|t| - 1], s, x);
      assert u[..|t| - 1] == t[..|t| - 1][s := x];
    }
  }

  lemma {:induction false} CountNone(t: seq<Slot>)
    requires forall i | 0 <= i < |t| :: t[i].Empty?
    ensures Count(t) == 0
  {
    if t != [] {
      CountNone(t[..|t| - 1]);
    }
  }

  /** Where a search for a key stands: every slot passed so far is full, with another key. */
  predicate Passed(start: u4, t: seq<Slot>, key: seq<u1>, i: nat)
    requires i < |t|
  {
    forall j | 0 <= j < |t| && Dist(|t|, Home(start, key, |t|), j) < Dist(|t|, Home(start, key, |t|), i) ::
      t[j].Full? && t[j].key != key
  }

  lemma PassedHome(start: u4, t: seq<Slot>, key: seq<u1>)
    requires t != []
    ensures Passed(start, t, key, Home(start, key, |t|)) && Reached(t, Home(start, key, |t|), Home(start, key, |t|))
  {
    hide Home;
  }

  /** A step past a full slot comes closer to an empty one. */
  lemma PassOn(t: seq<Slot>, home: nat, i: nat, e: nat)
    requires home < |t| && i < |t| && e < |t| && t[i].Full? && t[e].Empty? && Reached(t, home, i)
    ensures var j := (i + 1) % |t|;
        j < |t| && Reached(t, home, j) &&
        Dist(|t|, home, i) < Dist(|t|, home, j) <= Dist(|t|, home, e)
    ensures forall k | 0 <= k < |t| && Dist(|t|, home, k) < Dist(|t|, home, (i + 1) % |t|) ::
        Dist(|t|, home, k) < Dist(|t|, home, i) || k == i
  {
    NotBehind(t, home, i, e);
    Onward(|t|, home, i);
    var j := (i + 1) % |t|;
    forall k | 0 <= k < |t| && Dist(|t|, home, k) < Dist(|t|, home, j)
      ensures Dist(|t|, home, k) < Dist(|t|, home, i) || k == i
    {
      SameDist(|t|, home, k, i);
    }
  }

  lemma NotBehind(t: seq<Slot>, home: nat, i: nat, e: nat)
    requires home < |t| && i < |t| && e < |t| && t[i].Full? && t[e].Empty? && Reached(t, home, i)
    ensures Dist(|t|, home, i) < Dist(|t|, home, e)
  {
    SameDist(|t|, home, i, e);
  }

  lemma SameDist(n: nat, home: nat, i: nat, j: nat)
    requires home < n && i < n && j < n
    ensures Dist(n, home, i) == Dist(n, home, j) ==> i == j
  {
  }

  lemma PassKey(start: u4, t: seq<Slot>, key: seq<u1>, i: nat, e: nat)
    requires i < |t| && e < |t| && t[i].Full? && t[i].key != key && t[e].Empty? && Passed(start, t, key, i)
    ensures var j := (i + 1) % |t|; j < |t| && Passed(start, t, key, j)
    ensures var h := Home(start, key, |t|); var j := (i + 1) % |t|;
      Dist(|t|, h, i) < Dist(|t|, h, j) <= Dist(|t|, h, e)
  {
    hide Home;
    PassOn(t, Home(start, key, |t|), i, e);
  }

  lemma StopsAtKey(start: u4, t: seq<Slot>, key: seq<u1>, i: nat)
    requires i < |t| && t[i].Full? && t[i].key == key && Passed(start, t, key, i)
    ensures Found(start, t, key, i)
  {
    hide Home, Dist;
  }
}
