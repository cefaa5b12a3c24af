/**
 The clients of both endpoints and the items in flight between them, in the order of the stream.
 Packets name clients by id only, and ids are reused; the invariant says which client each item is
 for and that the receiver's id table leads to that client and no other.
 */
module ClientProtocol {
  import opened PoolState
  import opened Sessions

  /**
   `dtook` and `mtook` count the items the demux and the mux side have handled. The last two fields
   are history: which client of the demux side was created for which client of the mux side.
   */
  datatype World = World(mux: Pool, demux: Pool, mtook: nat, dtook: nat, mate: map<nat, nat>, pair: seq<nat>)

  /** The items composed for one client. */
  function Only(s: seq<Sent>, h: nat): seq<Item> {
    if s == [] then [] else (if s[0].owner == h then [s[0].item] else []) + Only(s[1..], h)
  }

  ghost predicate Bounds(w: World) {
    && !w.mux.demux && w.demux.demux
    && w.dtook <= |w.mux.sent| && w.mtook <= |w.demux.sent|
    && 0 < |w.mux.all|
    && |w.pair| == |w.demux.all|
  }

  /** Every client of the demux side stands for one client of the mux side. */
  ghost predicate Paired(w: World)
    requires Bounds(w)
  {
    && (forall m | m in w.mate :: 0 < m < |w.mux.all| && 0 < w.mate[m] < |w.demux.all| && w.pair[w.mate[m]] == m)
    && (forall d | 0 < d < |w.demux.all| :: w.pair[d] in w.mate && w.mate[w.pair[d]] == d)
  }

  ghost predicate Owned(p: Pool) {
    forall k | 0 <= k < |p.sent| :: 0 < p.sent[k].owner < |p.all| && p.sent[k].item.id == p.all[p.sent[k].owner].id
  }

  /** An id goes to a new client only after the old one is burned. */
  ghost predicate Older(p: Pool) {
    forall h, k | 0 <= h < k < |p.all| && p.all[h].id == p.all[k].id :: p.all[h].burned
  }

  /** In the stream from the mux side, items with the same id come in the order of their clients. */
  ghost predicate Ordered(p: Pool) {
    forall i, j | 0 <= i < j < |p.sent| && p.sent[i].item.id == p.sent[j].item.id :: p.sent[i].owner <= p.sent[j].owner
  }

  /** No item of an older client arrives once the demux side has met the newer one. */
  ghost predicate NoLatecomer(w: World)
    requires Bounds(w) && Paired(w)
  {
    forall m, k | m in w.mate && w.dtook <= k < |w.mux.sent| && w.mux.sent[k].item.id == w.mux.all[m].id ::
      m <= w.mux.sent[k].owner
  }

  ghost predicate Shape(w: World) {
    && Bounds(w) && Paired(w)
    && Owned(w.mux) && Owned(w.demux)
    && Older(w.mux) && Ordered(w.mux) && NoLatecomer(w)
  }

  function ToDemux(w: World, m: nat): seq<Item>
    requires w.dtook <= |w.mux.sent|
  {
    Only(w.mux.sent[w.dtook..], m)
  }

  function ToMux(w: World, m: nat): seq<Item>
    requires w.mtook <= |w.demux.sent|
  {
    if m in w.mate then Only(w.demux.sent[w.mtook..], w.mate[m]) else []
  }

  /** The demux side's record of client m of the mux side. */
  function Other(w: World, m: nat): Client
    requires m < |w.mux.all| && (m in w.mate ==> w.mate[m] < |w.demux.all|)
  {
    if m in w.mate then w.demux.all[w.mate[m]] else Unborn(w.mux.all[m].id)
  }

  ghost predicate InSession(w: World, m: nat)
    requires Bounds(w) && Paired(w) && m < |w.mux.all|
  {
    Session(w.mux.all[m], Other(w, m), ToDemux(w, m), ToMux(w, m))
  }

  ghost predicate Agreed(w: World) {
    && Tidy(w.mux) && Tidy(w.demux)
    && Shape(w)
    && forall m | 0 < m < |w.mux.all| :: InSession(w, m)
  }

  /* ---- ids lead to the right client ---- */

  /** An item in flight shows in its session. */
  lemma HeadOfOnly(s: seq<Sent>, k: nat)
    requires k < |s|
    ensures Only(s[k..], s[k].owner) == [s[k].item] + Only(s[k + 1..], s[k].owner)
    ensures forall h: nat :: h != s[k].owner ==> Only(s[k..], h) == Only(s[k + 1..], h)
  {
    assert s[k..][1..] == s[k + 1..];
  }

  lemma {:induction false} InFlightItem(s: seq<Sent>, h: nat) returns (k: nat)
    requires Only(s, h) != []
    ensures k < |s| && s[k].owner == h
  {
    if s[0].owner == h {
      k := 0;
    } else {
      k := InFlightItem(s[1..], h);
      k := k + 1;
    }
  }

  /**
   The demux side's next item reaches the client that stands for its sender; if the id is not in the
   table, the sender has never been met, so that a new client is due.
   */
  lemma DemuxKnows(w: World)
    requires Agreed(w) && w.dtook < |w.mux.sent|
    ensures var s := w.mux.sent[w.dtook];
      if s.item.id in w.demux.table then s.owner in w.mate && w.demux.table[s.item.id] == w.mate[s.owner]
      else s.owner !in w.mate
  {
    hide Session, Way, Tidy;
    var s := w.mux.sent[w.dtook];
    var m, id := s.owner, s.item.id;
    HeadOfOnly(w.mux.sent, w.dtook);
    if m in w.mate {
      NotTold(w, m);
      TableFinds(w.demux, w.mate[m]);
    } else if id in w.demux.table {
      IdTaken(w, id);
    }
  }

  lemma NotTold(w: World, m: nat)
    requires Agreed(w) && 0 < m < |w.mux.all| && ToDemux(w, m) != []
    ensures !Other(w, m).burned && Other(w, m).id == w.mux.all[m].id
  {
    assert InSession(w, m);
  }

  lemma TableFinds(p: Pool, h: nat)
    requires Tidy(p) && h < |p.all| && !p.all[h].burned
    ensures p.all[h].id in p.table && p.table[p.all[h].id] == h
  {
  }

  /** If the demux side has a client under the id of the next item, it is the one of the item's sender. */
  lemma IdTaken(w: World, id: int)
    requires Agreed(w) && w.dtook < |w.mux.sent| && id == w.mux.sent[w.dtook].item.id && id in w.demux.table
    ensures w.mux.sent[w.dtook].owner in w.mate
  {
    hide Session, Way;
    var m := w.mux.sent[w.dtook].owner;
    var d := w.demux.table[id];
    assert 0 < id;
    assert 0 < d < |w.demux.all|;
    var n := w.pair[d];
    PairIds(w, n);
    assert n <= m;
    if n < m {
      BurnedIsTold(w, n);
      LaterOwner(w, n);
    }
  }

  /** Items behind the next one and under the same id are not older. */
  lemma LaterOwner(w: World, n: nat)
    requires Shape(w) && w.dtook < |w.mux.sent| && 0 < n < |w.mux.all|
    requires ToDemux(w, n) != [] && w.mux.all[n].id == w.mux.sent[w.dtook].item.id
    ensures w.mux.sent[w.dtook].owner <= n
  {
    var k := InFlightItem(w.mux.sent[w.dtook..], n);
    assert w.mux.sent[w.dtook..][k] == w.mux.sent[w.dtook + k];
  }

  lemma PairIds(w: World, m: nat)
    requires Agreed(w) && m in w.mate
    ensures w.demux.all[w.mate[m]].id == w.mux.all[m].id
  {
    assert InSession(w, m);
  }

  /** Once the mux side has burned a client, the demux side has burned its own or its notice is still due. */
  lemma BurnedIsTold(w: World, m: nat)
    requires Agreed(w) && m in w.mate && w.mux.all[m].burned && !w.demux.all[w.mate[m]].burned
    ensures ToDemux(w, m) != []
  {
    assert InSession(w, m);
  }

  /** The mux side always knows the id of the next item, and it is the sender's. */
  lemma MuxKnows(w: World)
    requires Agreed(w) && w.mtook < |w.demux.sent|
    ensures var s := w.demux.sent[w.mtook];
      0 < s.owner < |w.pair| && s.item.id in w.mux.table && w.mux.table[s.item.id] == w.pair[s.owner]
  {
    hide Session, Way, Tidy;
    var s := w.demux.sent[w.mtook];
    var m := w.pair[s.owner];
    HeadOfOnly(w.demux.sent, w.mtook);
    MuxNotTold(w, m);
    TableFinds(w.mux, m);
  }

  lemma MuxNotTold(w: World, m: nat)
    requires Agreed(w) && m in w.mate && ToMux(w, m) != []
    ensures !w.mux.all[m].burned && w.mux.all[m].id == w.demux.all[w.mate[m]].id
  {
    assert InSession(w, m);
  }

  /* ---- steps of one client ---- */

  /** From p to q only client h changes, apart from places in the write list. */
  ghost predicate OthersAlike(p: Pool, q: Pool, h: nat) {
    && |q.all| == |p.all| && h < |p.all| && q.demux == p.demux
    && (forall k | 0 <= k < |p.all| && k != h :: q.all[k] == p.all[k].(queued := q.all[k].queued))
    && q.all[h].id == p.all[h].id && (p.all[h].burned ==> q.all[h].burned)
  }

  /** At most one item, marked with the client it is for. */
  function Tag(t: seq<Item>, h: nat): seq<Sent>
    requires |t| <= 1
  {
    if t == [] then [] else [Sent(t[0], h)]
  }

  lemma {:induction false} OnlyConcat(s: seq<Sent>, t: seq<Sent>, k: nat)
    ensures Only(s + t, k) == Only(s, k) + Only(t, k)
  {
    if s == [] {
      assert s + t == t;
    } else {
      var head := if s[0].owner == k then [s[0].item] else [];
      assert (s + t)[0] == s[0] && (s + t)[1..] == s[1..] + t;
      OnlyConcat(s[1..], t, k);
      assert head + (Only(s[1..], k) + Only(t, k)) == (head + Only(s[1..], k)) + Only(t, k);
    }
  }

  lemma OnlyTag(t: seq<Item>, h: nat, k: nat)
    requires |t| <= 1
    ensures Only(Tag(t, h), k) == if k == h then t else []
  {
    if t != [] {
      assert Tag(t, h)[1..] == [];
      assert [t[0]] == t;
    }
  }

  lemma OnlyAppend(s: seq<Sent>, t: seq<Item>, h: nat, k: nat)
    requires |t| <= 1
    ensures Only(s + Tag(t, h), k) == Only(s, k) + (if k == h then t else [])
  {
    OnlyConcat(s, Tag(t, h), k);
    OnlyTag(t, h, k);
  }

  lemma FlightGrows(s: seq<Sent>, took: nat, t: seq<Item>, h: nat, k: nat)
    requires took <= |s| && |t| <= 1
    ensures Only((s + Tag(t, h))[took..], k) == Only(s[took..], k) + (if k == h then t else [])
  {
    assert (s + Tag(t, h))[took..] == s[took..] + Tag(t, h);
    OnlyAppend(s[took..], t, h, k);
  }

  lemma AlikeSession(x: Client, y: Client, f: seq<Item>, g: seq<Item>, x': Client, y': Client)
    requires Session(x, y, f, g)
    requires x' == x.(queued := x'.queued) && y' == y.(queued := y'.queued)
    ensures Session(x', y', f, g)
  {
  }

  /** The items t are new, and client m of the mux side may still speak under its id. */
  lemma MuxShape(w: World, q: Pool, m: nat, t: seq<Item>)
    requires Tidy(w.mux) && Shape(w) && |t| <= 1
    requires 0 < m && OthersAlike(w.mux, q, m) && q.sent == w.mux.sent + Tag(t, m)
    requires t != [] ==> !w.mux.all[m].burned && t[0].id == w.mux.all[m].id
    ensures Shape(w.(mux := q))
  {
    MuxOrdered(w.mux, q, m, t);
    var v := w.(mux := q);
    assert Bounds(v) && Paired(v);
    forall n, k | n in v.mate && v.dtook <= k < |v.mux.sent| && v.mux.sent[k].item.id == v.mux.all[n].id
      ensures n <= v.mux.sent[k].owner
    {
      if k < |w.mux.sent| {
        assert v.mux.sent[k] == w.mux.sent[k];
      } else {
        NotNewer(w.mux, m, n);
      }
    }
  }

  lemma NotNewer(p: Pool, m: nat, n: nat)
    requires Older(p) && m < |p.all| && n < |p.all| && p.all[m].id == p.all[n].id && !p.all[m].burned
    ensures n <= m
  {
  }

  lemma MuxOrdered(p: Pool, q: Pool, m: nat, t: seq<Item>)
    requires Older(p) && Ordered(p) && Owned(p) && |t| <= 1
    requires 0 < m && OthersAlike(p, q, m) && q.sent == p.sent + Tag(t, m)
    requires t != [] ==> !p.all[m].burned && t[0].id == p.all[m].id
    ensures Older(q) && Ordered(q) && Owned(q)
  {
    forall i, j | 0 <= i < j < |q.sent| && q.sent[i].item.id == q.sent[j].item.id
      ensures q.sent[i].owner <= q.sent[j].owner
    {
      assert q.sent[i] == p.sent[i];
      if j < |p.sent| {
        assert q.sent[j] == p.sent[j];
      }
    }
  }

  lemma MuxStep(w: World, q: Pool, m: nat, t: seq<Item>)
    requires Agreed(w) && Tidy(q) && |t| <= 1
    requires 0 < m && OthersAlike(w.mux, q, m) && q.sent == w.mux.sent + Tag(t, m)
    requires t != [] ==> !w.mux.all[m].burned && t[0].id == w.mux.all[m].id
    requires Session(q.all[m], Other(w, m), ToDemux(w, m) + t, ToMux(w, m))
    ensures Agreed(w.(mux := q))
  {
    hide Session, Way, Tidy;
    MuxShape(w, q, m, t);
    var v := w.(mux := q);
    forall n | 0 < n < |v.mux.all|
      ensures InSession(v, n)
    {
      assert InSession(w, n);
      FlightGrows(w.mux.sent, w.dtook, t, m, n);
      if n != m {
        assert ToDemux(w, n) + [] == ToDemux(w, n);
        AlikeSession(w.mux.all[n], Other(w, n), ToDemux(w, n), ToMux(w, n), q.all[n], Other(v, n));
      }
    }
  }

  /** The mux side has handled its next item, for client m. */
  lemma MuxTakeStep(w: World, q: Pool)
    requires Agreed(w) && Tidy(q) && w.mtook < |w.demux.sent|
    requires w.demux.sent[w.mtook].owner < |w.pair|
    requires var m := w.pair[w.demux.sent[w.mtook].owner];
      && 0 < m && OthersAlike(w.mux, q, m) && q.sent == w.mux.sent
      && ToMux(w, m) != [] && Session(q.all[m], Other(w, m), ToDemux(w, m), ToMux(w, m)[1..])
    ensures Agreed(w.(mux := q, mtook := w.mtook + 1))
  {
    hide Session, Way, Tidy;
    var m := w.pair[w.demux.sent[w.mtook].owner];
    var u := w.(mux := q);
    assert q.sent == w.mux.sent + Tag([], m);
    MuxShape(w, q, m, []);
    var v := u.(mtook := w.mtook + 1);
    assert Shape(v);
    forall n | 0 < n < |v.mux.all|
      ensures InSession(v, n)
    {
      MuxTaken(w, q, n);
    }
  }

  lemma MuxTaken(w: World, q: Pool, n: nat)
    requires Shape(w) && Shape(w.(mux := q, mtook := w.mtook + 1)) && w.mtook < |w.demux.sent|
    requires w.demux.sent[w.mtook].owner < |w.pair|
    requires var m := w.pair[w.demux.sent[w.mtook].owner];
      && 0 < m && OthersAlike(w.mux, q, m) && q.sent == w.mux.sent
      && ToMux(w, m) != [] && Session(q.all[m], Other(w, m), ToDemux(w, m), ToMux(w, m)[1..])
    requires 0 < n < |w.mux.all| && InSession(w, n)
    ensures InSession(w.(mux := q, mtook := w.mtook + 1), n)
  {
    hide Session, Tidy, Older, Ordered, NoLatecomer, Only;
    var m := w.pair[w.demux.sent[w.mtook].owner];
    var v := w.(mux := q, mtook := w.mtook + 1);
    HeadOfOnly(w.demux.sent, w.mtook);
    if n != m {
      AlikeSession(w.mux.all[n], Other(w, n), ToDemux(w, n), ToMux(w, n), q.all[n], Other(v, n));
    } else {
      assert m in w.mate && w.mate[m] == w.demux.sent[w.mtook].owner;
      assert ToMux(v, m) == ToMux(w, m)[1..] && ToDemux(v, m) == ToDemux(w, m) && Other(v, m) == Other(w, m);
    }
  }

  lemma DemuxStep(w: World, q: Pool, d: nat, t: seq<Item>)
    requires Agreed(w) && Tidy(q) && |t| <= 1
    requires 0 < d && OthersAlike(w.demux, q, d) && q.sent == w.demux.sent + Tag(t, d)
    requires t != [] ==> t[0].id == w.demux.all[d].id
    requires var m := w.pair[d]; m < |w.mux.all| && Session(w.mux.all[m], q.all[d], ToDemux(w, m), ToMux(w, m) + t)
    ensures Agreed(w.(demux := q))
  {
    hide Session, Way, Tidy;
    var m := w.pair[d];
    var v := w.(demux := q);
    assert Owned(q) by {
      forall k | 0 <= k < |q.sent|
        ensures 0 < q.sent[k].owner < |q.all| && q.sent[k].item.id == q.all[q.sent[k].owner].id
      {
        if k < |w.demux.sent| {
          assert q.sent[k] == w.demux.sent[k];
        }
      }
    }
    assert Shape(v);
    forall n | 0 < n < |v.mux.all|
      ensures InSession(v, n)
    {
      assert InSession(w, n);
      if n in w.mate {
        FlightGrows(w.demux.sent, w.mtook, t, d, w.mate[n]);
      }
      if n != m {
        assert ToMux(w, n) + [] == ToMux(w, n);
        AlikeSession(w.mux.all[n], Other(w, n), ToDemux(w, n), ToMux(w, n), w.mux.all[n], Other(v, n));
      }
    }
  }

  lemma DemuxTakeStep(w: World, q: Pool, d: nat)
    requires Agreed(w) && Tidy(q) && w.dtook < |w.mux.sent|
    requires 0 < d && OthersAlike(w.demux, q, d) && q.sent == w.demux.sent
    requires var m := w.mux.sent[w.dtook].owner;
      && m < |w.mux.all| && w.pair[d] == m
      && ToDemux(w, m) != [] && Session(w.mux.all[m], q.all[d], ToDemux(w, m)[1..], ToMux(w, m))
    ensures Agreed(w.(demux := q, dtook := w.dtook + 1))
  {
    hide Session, Way, Tidy;
    var m := w.mux.sent[w.dtook].owner;
    var v := w.(demux := q, dtook := w.dtook + 1);
    HeadOfOnly(w.mux.sent, w.dtook);
    assert Shape(v);
    forall n | 0 < n < |v.mux.all|
      ensures InSession(v, n)
    {
      assert InSession(w, n);
      if n != m {
        AlikeSession(w.mux.all[n], Other(w, n), ToDemux(w, n), ToMux(w, n), w.mux.all[n], Other(v, n));
      } else {
        assert Only(w.mux.sent[w.dtook..], m)[1..] == Only(w.mux.sent[w.dtook + 1..], m);
      }
    }
  }

  /** Only places in the write list change. */
  ghost predicate AllAlike(p: Pool, q: Pool) {
    && |q.all| == |p.all| && q.demux == p.demux && q.sent == p.sent
    && forall k | 0 <= k < |p.all| :: q.all[k] == p.all[k].(queued := q.all[k].queued)
  }

  lemma MuxIdle(w: World, q: Pool)
    requires Agreed(w) && Tidy(q) && AllAlike(w.mux, q)
    ensures Agreed(w.(mux := q))
  {
    hide Session, Way, Tidy;
    var v := w.(mux := q);
    assert Shape(v);
    forall n | 0 < n < |v.mux.all|
      ensures InSession(v, n)
    {
      assert InSession(w, n);
      AlikeSession(w.mux.all[n], Other(w, n), ToDemux(w, n), ToMux(w, n), q.all[n], Other(v, n));
    }
  }

  lemma DemuxIdle(w: World, q: Pool)
    requires Agreed(w) && Tidy(q) && AllAlike(w.demux, q)
    ensures Agreed(w.(demux := q))
  {
    hide Session, Way, Tidy;
    var v := w.(demux := q);
    assert Shape(v);
    forall n | 0 < n < |v.mux.all|
      ensures InSession(v, n)
    {
      assert InSession(w, n);
      AlikeSession(w.mux.all[n], Other(w, n), ToDemux(w, n), ToMux(w, n), w.mux.all[n], Other(v, n));
    }
  }
}
