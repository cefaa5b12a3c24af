/** Every act of either endpoint on its clients, and every item handled, keeps the two in agreement. */
module ClientSteps {
  import opened NetBytes
  import opened Packets
  import opened PoolState
  import opened Sessions
  import opened ClientProtocol

  /** The client an act is about; 0 if it only moves places in the write list. */
  function Subject(p: Pool, a: Act): nat
    requires CanAct(p, a)
  {
    match a
    case Push(h) => 0
    case Establish(h) => h
    case Drop(h) => h
    case Flush(h, n) => h
    case Gather(data, end) => p.writeQ[0]
    case Pass => 0
    case Report => p.karmaQ[0]
    case Close => 0
  }

  lemma IdleAct(p: Pool, a: Act)
    requires CanAct(p, a) && Subject(p, a) == 0 && !a.Report?
    ensures AllAlike(p, Do(p, a))
  {
    hide Disconnect, Deliver, Collect, TakeNote, CanDeliver;
  }

  lemma PushAlike(p: Pool, h: nat)
    requires h < |p.all|
    ensures AllAlike(p, PushWriter(p, h)) && PushWriter(p, h).table == p.table
  {
  }

  lemma SetRkarmaAlike(p: Pool, h: nat, c: Client, k: int)
    requires 0 < h < |p.all| && c.id == p.all[h].id && (p.all[h].burned ==> c.burned)
    ensures var q := SetRkarma(Set(p, h, c), h, k);
      OthersAlike(p, q, h) && q.sent == p.sent && q.all[h] == c.(rkarma := k, queued := q.all[h].queued)
      && q.table == p.table
  {
    hide PushWriter;
    var q := Set(Set(p, h, c), h, c.(rkarma := k)).(karmaQ := p.karmaQ + [h]);
    PushAlike(q, 0);
  }

  /** What an act does to its client, seen from the session; t is the item it composes, if any. */
  lemma ActSession(p: Pool, a: Act, y: Client, f: seq<Item>, g: seq<Item>) returns (t: seq<Item>)
    requires Tidy(p) && CanAct(p, a) && Subject(p, a) > 0
    requires Session(p.all[Subject(p, a)], y, f, g)
    ensures |t| <= 1
    ensures var h := Subject(p, a); var q := Do(p, a);
      && OthersAlike(p, q, h)
      && q.sent == p.sent + Tag(t, h)
      && (t != [] ==> !p.all[h].burned && t[0].id == p.all[h].id)
      && Session(q.all[h], y, f + t, g)
  {
    hide Session, Way, Tidy, SetRkarma, Disconnect, Deliver, Collect;
    var h := Subject(p, a);
    var x := p.all[h];
    t := [];
    assert f + [] == f;
    match a
    case Establish(_) =>
      SameButConnecting(x, y, f, g, Do(p, a).all[h]);
    case Drop(_) =>
      DropSession(p, h, y, f, g);
    case Flush(_, n) =>
      FlushSession(p, h, n, y, f, g);
    case Gather(data, end) =>
      t := GatherSession(p, data, end, y, f, g);
    case Report =>
      SaneAt(p, h);
      KarmaHead(p);
      SendNote(x, y, f, g);
      t := [Credit(x.id, x.rkarma)];
    case _ =>
  }

  lemma DropSession(p: Pool, h: nat, y: Client, f: seq<Item>, g: seq<Item>)
    requires 0 < h < |p.all| && p.all[h].up && Session(p.all[h], y, f, g)
    ensures var q := Disconnect(p, h); OthersAlike(p, q, h) && q.sent == p.sent && Session(q.all[h], y, f, g)
  {
    hide Session, Way, Disconnect;
    var x := p.all[h];
    DropEffect(p, h);
    HangUp(x, y, f, g);
    AlikeSession(x.(up := false, rkarma := -1), y, f, g, Disconnect(p, h).all[h], y);
  }

  lemma FlushSession(p: Pool, h: nat, n: nat, y: Client, f: seq<Item>, g: seq<Item>)
    requires 0 < h && CanDeliver(p, h, n) && Session(p.all[h], y, f, g)
    ensures var q := Deliver(p, h, n); OthersAlike(p, q, h) && q.sent == p.sent && Session(q.all[h], y, f, g)
  {
    hide Session, Way, SetRkarma;
    var x := p.all[h];
    var c := x.(out := x.out[n..], written := x.written + x.out[..n]);
    SetRkarmaAlike(p, h, c, x.rkarma + n);
    Sessions.Flush(x, y, f, g, n);
    AlikeSession(c.(rkarma := x.rkarma + n), y, f, g, Deliver(p, h, n).all[h], y);
  }

  lemma SameButConnecting(x: Client, y: Client, f: seq<Item>, g: seq<Item>, x': Client)
    requires Session(x, y, f, g) && x' == x.(connecting := x'.connecting)
    ensures Session(x', y, f, g)
  {
  }

  lemma GatherSession(p: Pool, data: seq<byte>, end: End, y: Client, f: seq<Item>, g: seq<Item>) returns (t: seq<Item>)
    requires Tidy(p) && CanCollect(p, data, end) && Session(p.all[p.writeQ[0]], y, f, g)
    ensures |t| <= 1
    ensures var h := p.writeQ[0]; var q := Collect(p, data, end);
      && OthersAlike(p, q, h)
      && q.sent == p.sent + Tag(t, h)
      && (t != [] ==> !p.all[h].burned && t[0].id == p.all[h].id)
      && Session(q.all[h], y, f + t, g)
  {
    hide Session, Way, Tidy, Collect;
    var h := p.writeQ[0];
    var x := p.all[h];
    var x' := Collected(x, data, end);
    SaneAt(p, h);
    CollectEffect(p, data, end);
    assert f + [] == f;
    if data == [] {
      t := [];
      if end.Broken? {
        HangUp(x, y, f, g);
      }
    } else {
      t := [Payload(x.id, data)];
      SendPayload(x, y, f, g, data);
    }
    AlikeSession(x', y, f + t, g, Collect(p, data, end).all[h], y);
  }

  /** A client after mainw has collected a payload from it, up to its place in the write list. */
  function Collected(x: Client, data: seq<byte>, end: End): Client {
    if data == [] then
      if end.Broken? then x.(up := false, rkarma := -1) else x
    else
      x.(wkarma := x.wkarma - |data|, read := x.read + data)
  }

  lemma CollectEffect(p: Pool, data: seq<byte>, end: End)
    requires CanCollect(p, data, end)
    ensures var h := p.writeQ[0]; var q := Collect(p, data, end);
      && OthersAlike(p, q, h)
      && q.sent == p.sent + Tag(if data == [] then [] else [Payload(p.all[h].id, data)], h)
      && q.all[h] == Collected(p.all[h], data, end).(queued := q.all[h].queued)
  {
    hide Collect;
    if data == [] {
      CollectNothing(p, end);
    } else {
      CollectSome(p, data, end);
    }
  }

  lemma CollectSome(p: Pool, data: seq<byte>, end: End)
    requires CanCollect(p, data, end) && data != []
    ensures var h := p.writeQ[0]; var q := Collect(p, data, end); var c := p.all[h];
      && OthersAlike(p, q, h)
      && q.sent == p.sent + [Sent(Payload(c.id, data), h)]
      && q.all[h] == c.(wkarma := c.wkarma - |data|, read := c.read + data, queued := q.all[h].queued)
  {
    hide Requeue, Disconnect;
    var h := p.writeQ[0];
    var c := p.all[h].(wkarma := p.all[h].wkarma - |data|, read := p.all[h].read + data);
    var s := Set(Pop(p), h, c).(sent := p.sent + [Sent(Payload(c.id, data), h)]);
    RequeueEffect(p, s, h, end.Filled? && c.wkarma > 0);
  }

  lemma CollectNothing(p: Pool, end: End)
    requires CanCollect(p, [], end)
    ensures var h := p.writeQ[0]; var q := Collect(p, [], end);
      && OthersAlike(p, q, h)
      && q.sent == p.sent
      && q.all[h] == Collected(p.all[h], [], end).(queued := q.all[h].queued)
  {
    hide Requeue, Disconnect, OthersAlike;
    var h := p.writeQ[0];
    var r := if end.Broken? then Disconnect(Pop(p), h) else Pop(p);
    if end.Broken? {
      DropEffect(Pop(p), h);
    } else {
      SelfAlike(Pop(p), h);
    }
    AlikeParts(Pop(p), r, h);
    var c := r.all[h].(wkarma := r.all[h].wkarma - 0, read := r.all[h].read + []);
    assert c == r.all[h];
    assert Set(r, h, c) == r;
    PopAlike(p, r, h);
    RequeueEffect(p, r, h, end.Filled? && c.wkarma > 0);
  }

  lemma PopAlike(p: Pool, q: Pool, h: nat)
    requires p.writeQ != [] && OthersAlike(Pop(p), q, h)
    ensures OthersAlike(p, q, h)
  {
  }

  lemma RequeueEffect(p: Pool, s: Pool, h: nat, again: bool)
    requires OthersAlike(p, s, h)
    ensures var q := Requeue(s, h, again);
      OthersAlike(p, q, h) && q.sent == s.sent && q.all[h] == s.all[h].(queued := q.all[h].queued)
  {
  }

  lemma SelfAlike(q: Pool, h: nat)
    requires h < |q.all|
    ensures OthersAlike(q, q, h)
  {
  }

  lemma AlikeParts(p: Pool, q: Pool, h: nat)
    requires OthersAlike(p, q, h)
    ensures h < |q.all| == |p.all| && q.all[h].id == p.all[h].id
  {
  }

  lemma DropEffect(p: Pool, h: nat)
    requires 0 < h < |p.all|
    ensures var q := Disconnect(p, h);
      OthersAlike(p, q, h) && q.sent == p.sent && q.all[h] ==
          p.all[h].(up := false, rkarma := -1, queued := q.all[h].queued)
  {
    hide SetRkarma;
    SetRkarmaAlike(p, h, p.all[h].(up := false), -1);
  }

  /** What handling the next item does to its client. */
  lemma TakeSession(p: Pool, item: Item, y: Client, f: seq<Item>, g: seq<Item>)
    requires Tidy(p) && 0 < item.id && item.id in p.table && p.table[item.id] < |p.all|
    requires Session(p.all[p.table[item.id]], y, f, g) && g != [] && g[0] == item
    ensures !NoRoom(p.all[p.table[item.id]], item)
    ensures var h := p.table[item.id]; var q := Handle(p, item);
      && 0 < h && OthersAlike(p, q, h) && q.sent == p.sent
      && Session(q.all[h], y, f, g[1..])
  {
    hide Session, Way, Tidy, PushWriter, Handle;
    Entry(p, item.id);
    var h := p.table[item.id];
    match item
    case Payload(_, bytes) =>
      TakePayload(p.all[h], y, f, g);
      PayloadEffect(p, item);
    case Credit(_, karma) =>
      if karma >= 0 {
        TakeCredit(p.all[h], y, f, g);
        CreditEffect(p, item);
        AlikeSession(p.all[h].(wkarma := p.all[h].wkarma + karma), y, f, g[1..], Handle(p, item).all[h], y);
      } else {
        TakeNoticeSession(p, item, h, y, f, g);
      }
  }

  lemma TakeNoticeSession(p: Pool, item: Item, h: nat, y: Client, f: seq<Item>, g: seq<Item>)
    requires IsNotice(item) && item.id in p.table && 0 < p.table[item.id] == h < |p.all|
    requires Session(p.all[h], y, f, g) && g != [] && g[0] == item
    ensures OthersAlike(p, Handle(p, item), h) && Handle(p, item).sent == p.sent
    ensures Session(Handle(p, item).all[h], y, f, g[1..])
  {
    hide Session, Way, Handle;
    TakeNotice(p.all[h], y, f, g);
    NoticeEffect(p, item);
    assert Session(Notified(p.all[h]), y, f, g[1..]);
    AlikeSession(Notified(p.all[h]), y, f, g[1..], Handle(p, item).all[h], y);
  }

  lemma PayloadEffect(p: Pool, item: Item)
    requires item.Payload? && item.id in p.table && 0 < p.table[item.id] < |p.all|
    ensures var h := p.table[item.id]; var q := Handle(p, item);
      OthersAlike(p, q, h) && q.sent == p.sent && q.all[h] == p.all[h].(out := p.all[h].out + item.bytes)
  {
  }

  lemma CreditEffect(p: Pool, item: Item)
    requires item.Credit? && item.karma >= 0 && item.id in p.table && 0 < p.table[item.id] < |p.all|
    ensures var h := p.table[item.id]; var q := Handle(p, item); var c :=
        p.all[h].(wkarma := p.all[h].wkarma + item.karma);
      OthersAlike(p, q, h) && q.sent == p.sent && q.all[h] == c.(queued := q.all[h].queued)
  {
    hide PushWriter;
    var h := p.table[item.id];
    PushAlike(Set(p, h, p.all[h].(wkarma := p.all[h].wkarma + item.karma)), h);
  }

  /** A client after the peer's notice, up to its place in the write list. */
  function Notified(c: Client): Client {
    if c.up then c.(rdead := true, told := true, up := false, rkarma := -1)
    else if c.rkarma == 0 then c.(burned := true, told := true)
    else c.(rdead := true, told := true)
  }

  lemma NoticeEffect(p: Pool, item: Item)
    requires IsNotice(item) && item.id in p.table && 0 < p.table[item.id] < |p.all|
    ensures var h := p.table[item.id]; var q := Handle(p, item);
      OthersAlike(p, q, h) && q.sent == p.sent && q.all[h] == Notified(p.all[h]).(queued := q.all[h].queued)
  {
    var h := p.table[item.id];
    if p.all[h].up {
      hide Disconnect, OthersAlike;
      NoticeDrops(p, h);
    } else {
      hide Disconnect;
    }
  }

  lemma NoticeDrops(p: Pool, h: nat)
    requires 0 < h < |p.all|
    ensures var x := p.all[h].(rdead := true, told := true); var q := Disconnect(Set(p, h, x), h);
      OthersAlike(p, q, h) && q.sent == p.sent
      && q.all[h] == x.(up := false, rkarma := -1, queued := q.all[h].queued)
  {
    hide SetRkarma;
    var x := p.all[h].(rdead := true, told := true);
    SetRkarmaAlike(p, h, x.(up := false), -1);
    assert Set(Set(p, h, x), h, x.(up := false)) == Set(p, h, x.(up := false));
  }

  /* ---- the steps of the whole ---- */

  lemma MuxActs(w: World, a: Act)
    requires Agreed(w) && CanAct(w.mux, a)
    ensures Agreed(w.(mux := Do(w.mux, a)))
  {
    hide Session, Way, Tidy, Do;
    ActTidy(w.mux, a);
    if a.Report? {
      KarmaHead(w.mux);
    }
    var m := Subject(w.mux, a);
    if m == 0 {
      IdleAct(w.mux, a);
      MuxIdle(w, Do(w.mux, a));
    } else {
      assert InSession(w, m);
      var t := ActSession(w.mux, a, Other(w, m), ToDemux(w, m), ToMux(w, m));
      MuxStep(w, Do(w.mux, a), m, t);
    }
  }

  lemma SwapSession(x: Client, y: Client, f: seq<Item>, g: seq<Item>)
    requires Session(x, y, f, g)
    ensures Session(y, x, g, f)
  {
  }

  lemma DemuxActs(w: World, a: Act)
    requires Agreed(w) && CanAct(w.demux, a)
    ensures Agreed(w.(demux := Do(w.demux, a)))
  {
    hide Session, Way, Tidy, Do;
    ActTidy(w.demux, a);
    if a.Report? {
      KarmaHead(w.demux);
    }
    var d := Subject(w.demux, a);
    if d == 0 {
      IdleAct(w.demux, a);
      DemuxIdle(w, Do(w.demux, a));
    } else {
      var m := w.pair[d];
      assert InSession(w, m);
      SwapSession(w.mux.all[m], w.demux.all[d], ToDemux(w, m), ToMux(w, m));
      var t := ActSession(w.demux, a, w.mux.all[m], ToMux(w, m), ToDemux(w, m));
      SwapSession(Do(w.demux, a).all[d], w.mux.all[m], ToMux(w, m) + t, ToDemux(w, m));
      DemuxStep(w, Do(w.demux, a), d, t);
    }
  }

  /** The mux side handles its next item: its client is known, and there is room. */
  lemma MuxTakes(w: World)
    requires Agreed(w) && w.mtook < |w.demux.sent|
    ensures var item := w.demux.sent[w.mtook].item;
      && 0 < item.id && item.id in w.mux.table && w.mux.table[item.id] < |w.mux.all|
      && !NoRoom(w.mux.all[w.mux.table[item.id]], item)
      && Agreed(w.(mux := Handle(w.mux, item), mtook := w.mtook + 1))
  {
    hide Session, Way, Tidy, Handle;
    MuxKnows(w);
    var s := w.demux.sent[w.mtook];
    ItemIds(w.demux, w.mtook);
    var m := w.pair[s.owner];
    assert InSession(w, m);
    HeadOfOnly(w.demux.sent, w.mtook);
    SwapSession(w.mux.all[m], Other(w, m), ToDemux(w, m), ToMux(w, m));
    TakeSession(w.mux, s.item, Other(w, m), ToDemux(w, m), ToMux(w, m));
    HandleTidy(w.mux, s.item);
    MuxTakeStep(w, Handle(w.mux, s.item));
  }

  lemma ItemIds(p: Pool, k: nat)
    requires Tidy(p) && Owned(p) && k < |p.sent|
    ensures 0 < p.sent[k].item.id < MAX_CLIENTS
  {
  }

  lemma DemuxTakes(w: World)
    requires Agreed(w) && w.dtook < |w.mux.sent| && w.mux.sent[w.dtook].item.id in w.demux.table
    ensures var item := w.mux.sent[w.dtook].item;
      && 0 < item.id && w.demux.table[item.id] < |w.demux.all|
      && !NoRoom(w.demux.all[w.demux.table[item.id]], item)
      && Agreed(w.(demux := Handle(w.demux, item), dtook := w.dtook + 1))
  {
    hide Session, Way, Tidy, Handle;
    DemuxKnows(w);
    var s := w.mux.sent[w.dtook];
    ItemIds(w.mux, w.dtook);
    var m := s.owner;
    var d := w.mate[m];
    assert InSession(w, m);
    HeadOfOnly(w.mux.sent, w.dtook);
    SwapSession(w.mux.all[m], w.demux.all[d], ToDemux(w, m), ToMux(w, m));
    TakeSession(w.demux, s.item, w.mux.all[m], ToMux(w, m), ToDemux(w, m));
    SwapSession(Handle(w.demux, s.item).all[d], w.mux.all[m], ToMux(w, m), ToDemux(w, m)[1..]);
    HandleTidy(w.demux, s.item);
    DemuxTakeStep(w, Handle(w.demux, s.item), d);
  }

  /* ---- clients come ---- */

  lemma {:induction false} OnlyNone(s: seq<Sent>, h: nat)
    requires forall k | 0 <= k < |s| :: s[k].owner != h
    ensures Only(s, h) == []
  {
    if s != [] {
      OnlyNone(s[1..], h);
    }
  }

  lemma AcceptEffect(p: Pool, id: int)
    requires 0 < |p.all|
    ensures var h := |p.all|; var q := Accept(p, id);
      && |q.all| == h + 1 && q.demux == p.demux && q.sent == p.sent
      && (forall k | 0 <= k < h :: q.all[k] == p.all[k].(queued := q.all[k].queued))
      && q.all[h] == NewClient(id).(up := true, rkarma := CLIENT_KARMA, queued := q.all[h].queued)
  {
    hide SetRkarma;
    var a := Allocate(p, id);
    SetRkarmaAlike(a, |p.all|, NewClient(id).(up := true), CLIENT_KARMA);
  }

  lemma MuxAccepts(w: World, id: int)
    requires Agreed(w) && 0 < id < MAX_CLIENTS && id !in w.mux.table
    ensures Agreed(w.(mux := Accept(w.mux, id)))
  {
    hide Session, Way, Tidy, Accept;
    var q := Accept(w.mux, id);
    var v := w.(mux := q);
    var m := |w.mux.all|;
    AcceptTidy(w.mux, id);
    AcceptEffect(w.mux, id);
    NewIsLast(w.mux, id, q);
    assert Shape(v);
    forall n | 0 < n < |q.all|
      ensures InSession(v, n)
    {
      if n < m {
        assert InSession(w, n);
        AlikeSession(w.mux.all[n], Other(w, n), ToDemux(w, n), ToMux(w, n), q.all[n], Other(v, n));
      } else {
        OnlyNone(w.mux.sent[w.dtook..], m);
        SessionOpens(id);
        AlikeSession(NewClient(id).(up := true, rkarma := CLIENT_KARMA), Unborn(id), [], [], q.all[m], Unborn(id));
      }
    }
  }

  lemma NewIsLast(p: Pool, id: int, q: Pool)
    requires Tidy(p) && Older(p) && id !in p.table
    requires |q.all| == |p.all| + 1 && q.all[|p.all|].id == id
    requires forall k | 0 <= k < |p.all| :: q.all[k] == p.all[k].(queued := q.all[k].queued)
    ensures Older(q)
  {
  }

  lemma IntroduceEffect(p: Pool, id: int, outcome: Outcome)
    requires 0 < |p.all|
    ensures var h := |p.all|; var q := Introduce(p, id, outcome);
      && |q.all| == h + 1 && q.demux == p.demux && q.sent == p.sent
      && (forall k | 0 <= k < h :: q.all[k] == p.all[k].(queued := q.all[k].queued))
      && q.all[h] == Introduced(id, outcome).(queued := q.all[h].queued)
      && id in q.table
  {
    hide SetRkarma, Disconnect;
    var h := |p.all|;
    var a := Allocate(p, id);
    var r := Set(a, h, a.all[h].(up := true, connecting := !outcome.Connected?, wkarma := 0));
    if outcome.Refused? {
      DropEffect(r, h);
      DropTable(r, h);
    }
  }

  lemma DropTable(p: Pool, h: nat)
    requires 0 < h < |p.all|
    ensures Disconnect(p, h).table == p.table
  {
    SetRkarmaAlike(p, h, p.all[h].(up := false), -1);
  }

  function Introduced(id: int, outcome: Outcome): Client {
    var c := NewClient(id).(up := true, connecting := !outcome.Connected?, wkarma := 0);
    if outcome.Refused? then c.(up := false, rkarma := -1) else c
  }

  /** The unborn client of a session comes to life on the demux side. */
  lemma Birth(x: Client, f: seq<Item>, outcome: Outcome)
    requires Session(x, Unborn(x.id), f, [])
    ensures Session(x, Introduced(x.id, outcome), f, [])
  {
  }

  /** The world after the demux side has met the sender of its next item. */
  function Met(w: World, outcome: Outcome): World
    requires w.dtook < |w.mux.sent| && 0 < |w.demux.all|
  {
    var s := w.mux.sent[w.dtook];
    w.(demux := Introduce(w.demux, s.item.id, outcome),
       mate := w.mate[s.owner := |w.demux.all|],
       pair := w.pair + [s.owner])
  }

  lemma DemuxMeets(w: World, outcome: Outcome)
    requires Agreed(w) && w.dtook < |w.mux.sent| && w.mux.sent[w.dtook].item.id !in w.demux.table
    ensures 0 < |w.demux.all| && Agreed(Met(w, outcome)) && w.mux.sent[w.dtook].item.id in Met(w, outcome).demux.table
  {
    hide Session, Way, Tidy, Introduce;
    var s := w.mux.sent[w.dtook];
    var id := s.item.id;
    DemuxKnows(w);
    ItemIds(w.mux, w.dtook);
    IntroduceTidy(w.demux, id, outcome);
    HasControl(w.demux);
    IntroduceEffect(w.demux, id, outcome);
    MetShape(w, outcome);
    var v := Met(w, outcome);
    var d := |w.demux.all|;
    forall n | 0 < n < |v.mux.all|
      ensures InSession(v, n)
    {
      assert InSession(w, n);
      if n == s.owner {
        OnlyNone(w.demux.sent[w.mtook..], d);
        Birth(w.mux.all[n], ToDemux(w, n), outcome);
        AlikeSession(w.mux.all[n], Introduced(id, outcome), ToDemux(w, n), [], w.mux.all[n], v.demux.all[d]);
      } else {
        AlikeSession(w.mux.all[n], Other(w, n), ToDemux(w, n), ToMux(w, n), w.mux.all[n], Other(v, n));
      }
    }
  }

  lemma HasControl(p: Pool)
    requires Tidy(p)
    ensures 0 < |p.all|
  {
  }

  lemma MetShape(w: World, outcome: Outcome)
    requires Shape(w) && w.dtook < |w.mux.sent| && w.mux.sent[w.dtook].owner !in w.mate && 0 < |w.demux.all|
    ensures Shape(Met(w, outcome))
  {
    hide Introduce;
    var s := w.mux.sent[w.dtook];
    IntroduceEffect(w.demux, s.item.id, outcome);
    var v := Met(w, outcome);
    assert Paired(v);
    forall n, k | n in v.mate && v.dtook <= k < |v.mux.sent| && v.mux.sent[k].item.id == v.mux.all[n].id
      ensures n <= v.mux.sent[k].owner
    {
      if n == s.owner && k > w.dtook {
        assert w.mux.sent[w.dtook].owner <= w.mux.sent[k].owner;
      }
    }
  }
}
