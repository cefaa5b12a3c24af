/**
 The mux side, the demux side and the connections between them: every interleaving of their events,
 with connections breaking and being re-made at any time.
 */
module TcpmuxSystem {
  import opened NetBytes
  import opened Packets
  import opened WireState
  import opened WireProtocol
  import opened PoolState
  import opened Sessions
  import opened ClientProtocol
  import opened ClientSteps
  import opened NodeState

  /** `mate` and `pair` are history, as in World. */
  datatype Sys = Sys(mux: Node, demux: Node, link: Link, mate: map<nat, nat>, pair: seq<nat>)

  datatype Step =
    | Mux(e: Event)
    | Demux(e: Event)
    | Dial
    | Answer
    | AnswerLate(pos: int, kept: nat)
    | MuxShakes(pos: int)
    | DemuxShakes
    | MuxBreaks(kept: nat)
    | DemuxBreaks(kept: nat)

  /** A read takes bytes that are in flight. */
  predicate Readable(e: Event, flight: seq<byte>) {
    e.Gets? ==> e.bs <= flight
  }

  /** What remains in flight once an event has read. */
  function Rest(e: Event, flight: seq<byte>): seq<byte> {
    if e.Gets? && e.bs <= flight then flight[|e.bs|..] else flight
  }

  /**
   A break while the demux side waits for the peer position is left out: such a demux session cannot
   be resumed.
   */
  predicate Enabled(s: Sys, step: Step) {
    match step
    case Mux(e) => CanStep(s.mux, e) && Readable(e, s.link.toMux)
    case Demux(e) => CanStep(s.demux, e) && Readable(e, s.link.toDemux)
    case Dial => s.mux.wire.conn.Down?
    case Answer => s.mux.wire.conn.Dialing? && !s.link.linked && !s.demux.wire.conn.Dialing?
    case AnswerLate(pos, kept) =>
      !s.demux.wire.conn.Dialing? && GoodPosition(s.demux.wire.streamPos, pos) && kept <= |s.link.toMux|
    case MuxShakes(pos) =>
      && s.mux.wire.conn.Dialing? && GoodPosition(s.mux.wire.streamPos, pos)
      && (s.link.linked ==> pos == s.link.demuxPos)
    case DemuxShakes => s.demux.wire.conn.Dialing? && s.link.linked
    case MuxBreaks(kept) => !s.demux.wire.conn.Dialing? && kept <= |s.link.toDemux|
    case DemuxBreaks(kept) => s.demux.wire.conn.Ready? && kept <= |s.link.toMux|
  }

  function Next(s: Sys, step: Step): Sys
    requires Enabled(s, step)
  {
    var l := s.link;
    match step
    case Mux(e) =>
      var out := if l.linked then l.toDemux + Output(s.mux, e) else l.toDemux;
      s.(mux := NodeState.Step(s.mux, e), link := l.(toDemux := out, toMux := Rest(e, l.toMux)))
    case Demux(e) =>
      var out := if l.linked then l.toMux + Output(s.demux, e) else l.toMux;
      var t := s.(demux := NodeState.Step(s.demux, e), link := l.(toMux := out, toDemux := Rest(e, l.toDemux)));
      if e.Meets? && s.demux.taken < |s.mux.pool.sent| then
        var m := s.mux.pool.sent[s.demux.taken].owner;
        t.(mate := s.mate[m := |s.demux.pool.all|], pair := s.pair + [m])
      else
        t
    case Dial => s.(mux := SetConn(s.mux, Dialing), link := l.(muxPos := s.mux.wire.rstreamPos))
    case Answer =>
      s.(demux := SetConn(s.demux, Dialing), link := Link(true, [], [], l.muxPos, s.demux.wire.rstreamPos))
    case AnswerLate(pos, kept) =>
      s.(demux := s.demux.(wire := Shake(s.demux.wire, pos)),
         link := Link(false, [], l.toMux[..kept], l.muxPos, s.demux.wire.rstreamPos))
    case MuxShakes(pos) => s.(mux := s.mux.(wire := Shake(s.mux.wire, pos)))
    case DemuxShakes => s.(demux := s.demux.(wire := Shake(s.demux.wire, l.muxPos)))
    case MuxBreaks(kept) =>
      s.(mux := SetConn(s.mux, Down), link := l.(linked := false, toDemux := l.toDemux[..kept], toMux := []))
    case DemuxBreaks(kept) =>
      s.(demux := SetConn(s.demux, Down), link := l.(linked := false, toMux := l.toMux[..kept], toDemux := []))
  }

  function SetConn(n: Node, conn: Conn): Node {
    n.(wire := n.wire.(conn := conn))
  }

  ghost predicate Start(s: Sys) {
    && |s.mux.wire.stream| == |s.demux.wire.stream| == GLOBAL_KARMA
    && |s.mux.wire.rin| == |s.demux.wire.rin| == MESSAGE
    && s.mux == FreshNode(false, s.mux.wire.stream, s.mux.wire.rin)
    && s.demux == FreshNode(true, s.demux.wire.stream, s.demux.wire.rin)
    && s.link == Link(false, [], [], 0, 0)
    && s.mate == map[] && s.pair == [0]
  }

  /* ---- the invariant ---- */

  function WorldOf(s: Sys): World {
    World(s.mux.pool, s.demux.pool, s.mux.taken, s.demux.taken, s.mate, s.pair)
  }

  function Items(sent: seq<Sent>): (r: seq<Item>)
    ensures |r| == |sent|
  {
    seq(|sent|, i requires 0 <= i < |sent| => sent[i].item)
  }

  function AllItems(ps: seq<Packet>): seq<Item> {
    if ps == [] then [] else ItemsOf(ps[0]) + AllItems(ps[1..])
  }

  /** The packets x composes carry its items in order, and y's inbox holds the ones it handles next. */
  ghost predicate Flow(x: Node, y: Node) {
    && Items(x.pool.sent) == AllItems(x.wire.sent)
    && y.taken + |y.inbox| == |AllItems(y.wire.got)|
    && y.taken + |y.inbox| <= |x.pool.sent|
    && y.inbox == Items(x.pool.sent)[y.taken..y.taken + |y.inbox|]
  }

  ghost predicate Inv(s: Sys) {
    && Coupled(s.mux.wire, s.demux.wire, s.link)
    && Agreed(WorldOf(s))
    && Flow(s.mux, s.demux) && Flow(s.demux, s.mux)
    && Prompt(s.mux) && Prompt(s.demux)
  }

  lemma StartInv(s: Sys)
    requires Start(s) && Coupled(s.mux.wire, s.demux.wire, s.link) && Agreed(WorldOf(s))
    ensures Inv(s)
  {
    hide Coupled, Agreed;
  }

  lemma StartCoupled(x: Wire, y: Wire)
    requires |x.stream| == |y.stream| == GLOBAL_KARMA && |x.rin| == |y.rin| == MESSAGE
    requires x == Fresh(x.stream, x.rin) && y == Fresh(y.stream, y.rin)
    ensures Coupled(x, y, Link(false, [], [], 0, 0))
  {
    hide Sound, InStep;
    FreshIsSound(x.stream, x.rin);
    FreshIsSound(y.stream, y.rin);
    StartInStep(x, y);
    StartInStep(y, x);
  }

  lemma StartInStep(x: Wire, y: Wire)
    requires |y.rin| == MESSAGE && x == Fresh(x.stream, x.rin) && y == Fresh(y.stream, y.rin)
    ensures InStep(x, y)
  {
    assert EncodeAll([]) + y.rin[..0] == [];
  }

  lemma StartAgreed(s: Sys)
    requires Start(s)
    ensures Agreed(WorldOf(s))
  {
    FreshIsTidy(false);
    FreshIsTidy(true);
  }

  /* ---- items and packets ---- */

  lemma {:induction false} AllItemsAppend(ps: seq<Packet>, qs: seq<Packet>)
    ensures AllItems(ps + qs) == AllItems(ps) + AllItems(qs)
  {
    if ps == [] {
      assert ps + qs == qs;
    } else {
      assert (ps + qs)[1..] == ps[1..] + qs;
      AllItemsAppend(ps[1..], qs);
    }
  }

  lemma AllItemsSnoc(ps: seq<Packet>, p: Packet)
    ensures AllItems(ps + [p]) == AllItems(ps) + ItemsOf(p)
  {
    AllItemsAppend(ps, [p]);
    assert [p][1..] == [];
    assert AllItems([p]) == ItemsOf(p) + [];
  }

  lemma {:induction false} NotesAreItems(p: Pool, k: nat)
    ensures Items(TakeNotes(p, k).sent) == Items(p.sent) + NoteItems(AckNotes(p, k))
    ensures |TakeNotes(p, k).all| == |p.all|
    decreases k
  {
    if k != 0 && p.karmaQ != [] && p.karmaQ[0] < |p.all| {
      var c := p.all[p.karmaQ[0]];
      var q := TakeNote(p);
      NotesAreItems(q, k - 1);
      assert Items(q.sent) == Items(p.sent) + [Credit(c.id, c.rkarma)];
      assert NoteItems(AckNotes(p, k)) == [Credit(c.id, c.rkarma)] + NoteItems(AckNotes(q, k - 1));
    } else {
      assert NoteItems([]) == [];
    }
  }

  /* ---- flow ---- */

  /** x composes one packet. */
  lemma ComposeFlow(x: Node, y: Node, x': Node, p: Packet)
    requires Flow(x, y)
    requires x'.wire.sent == x.wire.sent + [p]
    requires Items(x'.pool.sent) == Items(x.pool.sent) + ItemsOf(p)
    ensures Flow(x', y)
  {
    AllItemsSnoc(x.wire.sent, p);
  }

  /** y takes out the packet x composed next. */
  lemma OpenFlow(x: Node, y: Node)
    requires Flow(x, y) && CanStep(y, Opens)
    requires |y.wire.got| < |x.wire.sent| && y.wire.got == x.wire.sent[..|y.wire.got|]
    requires Decode(y.wire.rin) == x.wire.sent[|y.wire.got|]
    ensures Flow(x, NodeState.Step(y, Opens))
  {
    hide Decode, ItemsOf, Complete;
    var g := |y.wire.got|;
    var p := x.wire.sent[g];
    AllItemsSnoc(y.wire.got, p);
    SplitSent(x.wire.sent, g);
    var rest := AllItems(x.wire.sent[g + 1..]);
    assert Items(x.pool.sent) == AllItems(y.wire.got) + ItemsOf(p) + rest;
  }

  lemma SplitSent(ps: seq<Packet>, g: nat)
    requires g < |ps|
    ensures AllItems(ps) == AllItems(ps[..g]) + ItemsOf(ps[g]) + AllItems(ps[g + 1..])
  {
    hide ItemsOf, AllItems;
    SplitAt(ps, g);
    AllItemsAppend(ps[..g] + [ps[g]], ps[g + 1..]);
    AllItemsSnoc(ps[..g], ps[g]);
  }

  lemma SplitAt(ps: seq<Packet>, g: nat)
    requires g < |ps|
    ensures ps == (ps[..g] + [ps[g]]) + ps[g + 1..]
  {
  }

  /** The item y handles next is the next one x composed. */
  lemma NextItem(x: Node, y: Node)
    requires Flow(x, y) && y.inbox != []
    ensures y.taken < |x.pool.sent| && y.inbox[0] == x.pool.sent[y.taken].item
  {
    assert Items(x.pool.sent)[y.taken] == x.pool.sent[y.taken].item;
  }

  lemma TakeFlow(x: Node, y: Node, pool: Pool)
    requires Flow(x, y) && y.inbox != []
    ensures Flow(x, y.(pool := pool, inbox := y.inbox[1..], taken := y.taken + 1))
  {
  }

  /* ---- clients ---- */

  lemma MuxReports(w: World)
    requires Agreed(w) && w.mux.karmaQ != [] && w.mux.karmaQ[0] < |w.mux.all|
    ensures Agreed(w.(mux := TakeNote(w.mux)))
  {
    hide Agreed, TakeNote;
    MuxActs(w, Report);
  }

  lemma DemuxReports(w: World)
    requires Agreed(w) && w.demux.karmaQ != [] && w.demux.karmaQ[0] < |w.demux.all|
    ensures Agreed(w.(demux := TakeNote(w.demux)))
  {
    hide Agreed, TakeNote;
    DemuxActs(w, Report);
  }

  lemma {:induction false} MuxNotes(w: World, k: nat)
    requires Agreed(w)
    ensures Agreed(w.(mux := TakeNotes(w.mux, k)))
    decreases k
  {
    hide Agreed, TakeNote;
    if k != 0 && w.mux.karmaQ != [] && w.mux.karmaQ[0] < |w.mux.all| {
      MuxReports(w);
      MuxNotes(w.(mux := TakeNote(w.mux)), k - 1);
    }
  }

  lemma {:induction false} DemuxNotes(w: World, k: nat)
    requires Agreed(w)
    ensures Agreed(w.(demux := TakeNotes(w.demux, k)))
    decreases k
  {
    hide Agreed, TakeNote;
    if k != 0 && w.demux.karmaQ != [] && w.demux.karmaQ[0] < |w.demux.all| {
      DemuxReports(w);
      DemuxNotes(w.(demux := TakeNote(w.demux)), k - 1);
    }
  }

  lemma MuxAcknowledges(w: World)
    requires Agreed(w) && CanAcknowledge(w.mux)
    ensures Agreed(w.(mux := Acknowledge(w.mux)))
  {
    hide Agreed;
    MuxNotes(w, MAX_NOTES);
    TakeNotesSize(w.mux, MAX_NOTES);
    MuxActs(w.(mux := TakeNotes(w.mux, MAX_NOTES)), Close);
  }

  lemma DemuxAcknowledges(w: World)
    requires Agreed(w) && CanAcknowledge(w.demux)
    ensures Agreed(w.(demux := Acknowledge(w.demux)))
  {
    hide Agreed;
    DemuxNotes(w, MAX_NOTES);
    TakeNotesSize(w.demux, MAX_NOTES);
    DemuxActs(w.(demux := TakeNotes(w.demux, MAX_NOTES)), Close);
  }

  lemma AcknowledgeItems(p: Pool)
    requires CanAcknowledge(p)
    ensures Items(Acknowledge(p).sent) == Items(p.sent) + NoteItems(AckNotes(p, MAX_NOTES))
  {
    NotesAreItems(p, MAX_NOTES);
  }

  lemma CollectItems(p: Pool, data: seq<byte>, end: End)
    requires CanCollect(p, data, end)
    ensures Items(Collect(p, data, end).sent) ==
      Items(p.sent) + (if data == [] then [] else [Payload(p.all[p.writeQ[0]].id, data)])
  {
    CollectEffect(p, data, end);
  }

  /* ---- the stream ---- */

  lemma ComposeOther(x: Wire, y: Wire, p: Packet, linked: bool, flight: seq<byte>, pos: nat)
    requires Half(y, x, linked, flight, pos) && CanCompose(x, p)
    ensures Half(y, Compose(x, p), linked, flight, pos)
  {
  }

  /** A packet composed shows in both directions. */
  lemma ComposeBoth(x: Wire, y: Wire, p: Packet, linked: bool, toY: seq<byte>, toX: seq<byte>, posY: nat, posX: nat)
    requires Sound(x) && CanCompose(x, p) && Half(x, y, linked, toY, posY) && Half(y, x, linked, toX, posX)
    ensures Sound(Compose(x, p)) && Half(Compose(x, p), y, linked, toY, posY) &&
        Half(y, Compose(x, p), linked, toX, posX)
  {
    hide Half, Sound, Compose;
    ComposeSound(x, p);
    ComposeHalf(x, y, p, linked, toY, posY);
    ComposeOther(x, y, p, linked, toX, posX);
  }

  lemma PutOther(x: Wire, y: Wire, k: nat, linked: bool, flight: seq<byte>, pos: nat)
    requires Half(y, x, linked, flight, pos) && CanPut(x, k)
    requires |x.stream| == GLOBAL_KARMA && x.streamPos < GLOBAL_KARMA && |x.pending| <= MESSAGE
    ensures Half(y, Put(x, k), linked, flight, pos)
  {
    hide Encode;
  }

  lemma RepayOther(x: Wire, y: Wire, k: nat, linked: bool, flight: seq<byte>, pos: nat)
    requires Half(y, x, linked, flight, pos) && CanRepay(x, k)
    ensures Half(y, Repay(x, k), linked, flight, pos)
  {
  }

  lemma GetOther(x: Wire, y: Wire, bs: seq<byte>, linked: bool, flight: seq<byte>, pos: nat)
    requires Half(x, y, linked, flight, pos) && CanGet(x, bs)
    ensures Half(Get(x, bs), y, linked, flight, pos)
  {
  }

  lemma OpenOther(x: Wire, y: Wire, linked: bool, flight: seq<byte>, pos: nat)
    requires Half(x, y, linked, flight, pos) && Complete(x)
    ensures Half(Open(x), y, linked, flight, pos)
  {
    hide Decode;
  }

  /** A packet that is taken out is the next one that the other side composed. */
  predicate OpensNext(x: Wire, y: Wire, e: Event) {
    e.Opens? && Complete(x) ==> |x.got| < |y.sent| && Decode(x.rin) == y.sent[|x.got|]
  }

  /** An event of x, with the bytes it reads from y and the bytes it writes to y. */
  lemma WireStep(x: Node, y: Wire, e: Event, linked: bool, toY: seq<byte>, toX: seq<byte>, posY: nat, posX: nat)
    requires CanStep(x, e) && Readable(e, toX)
    requires Sound(x.wire) && Sound(y)
    requires Half(x.wire, y, linked, toY, posY) && Half(y, x.wire, linked, toX, posX)
    ensures var x' := NodeState.Step(x, e);
      && Sound(x'.wire)
      && Half(x'.wire, y, linked, if linked then toY + Output(x, e) else toY, posY)
      && Half(y, x'.wire, linked, Rest(e, toX), posX)
    ensures OpensNext(x.wire, y, e)
  {
    hide Half, Sound, Encode, Decode, Get, Open, Put, Repay, Compose, CanGet, CanPut, CanRepay, Complete, Repayment,
        CanCompose;
    assert toY + [] == toY;
    match e
    case Acks => ComposeBoth(x.wire, y, NextAck(x), linked, toY, toX, posY, posX);
    case Gathers(data, end) =>
      if data != [] {
        ComposeBoth(x.wire, y, Data(x.pool.all[x.pool.writeQ[0]].id, data), linked, toY, toX, posY, posX);
      }
    case Puts(k) =>
      PutSound(x.wire, k);
      PutHalf(x.wire, y, k, linked, toY, posY);
      PutOther(x.wire, y, k, linked, toX, posX);
    case Repays(k) =>
      RepaySound(x.wire, k);
      RepayHalf(x.wire, y, k, linked, toY, posY);
      RepayOther(x.wire, y, k, linked, toX, posX);
    case Gets(bs) =>
      SoundParts(y);
      assert toX[..|bs|] == bs;
      GetSound(x.wire, bs);
      GetHalf(y, x.wire, |bs|, linked, toX, posX);
      GetOther(x.wire, y, bs, linked, toY, posY);
    case Opens =>
      SoundParts(y);
      OpenHalf(y, x.wire, linked, toX, posX);
      AckedSign(y, |x.wire.got|);
      CreditLeft(x.wire);
      OpenSound(x.wire);
      OpenOther(x.wire, y, linked, toY, posY);
    case _ =>
  }

  lemma SoundParts(w: Wire)
    requires Sound(w)
    ensures Framed(w)
  {
  }

  lemma AckedSign(w: Wire, k: nat)
    requires Sound(w) && k < |w.sent|
    ensures Acked(w.sent[k]) >= 0
  {
    assert GoodPacket(w.sent[k]);
  }

  /** Where an event leaves the connection state and what has been read, as far as a dial is concerned. */
  lemma StepConn(x: Node, e: Event)
    requires CanStep(x, e)
    ensures NodeState.Step(x, e).wire.conn == x.wire.conn
    ensures x.wire.conn.Dialing? ==> NodeState.Step(x, e).wire.heard == x.wire.heard
  {
    hide Encode, Decode;
  }

  /* ---- no error branch is reachable ---- */

  lemma MuxInbox(s: Sys)
    requires Inv(s) && s.mux.inbox != []
    ensures s.mux.taken < |s.demux.pool.sent| && s.mux.inbox[0] == s.demux.pool.sent[s.mux.taken].item
    ensures var id := s.mux.inbox[0].id;
      && 0 < id < MAX_CLIENTS && id in s.mux.pool.table && s.mux.pool.table[id] < |s.mux.pool.all|
      && !NoRoom(s.mux.pool.all[s.mux.pool.table[id]], s.mux.inbox[0])
  {
    hide Agreed, Coupled, Flow;
    var w := WorldOf(s);
    NextItem(s.demux, s.mux);
    AgreedParts(w);
    MuxTakes(w);
    ItemIds(w.demux, w.mtook);
  }

  lemma AgreedParts(w: World)
    requires Agreed(w)
    ensures Tidy(w.mux) && Tidy(w.demux) && Owned(w.mux) && Owned(w.demux)
  {
  }

  lemma DemuxInbox(s: Sys)
    requires Inv(s) && s.demux.inbox != []
    ensures s.demux.taken < |s.mux.pool.sent| && s.demux.inbox[0] == s.mux.pool.sent[s.demux.taken].item
    ensures var id := s.demux.inbox[0].id;
      && 0 < id < MAX_CLIENTS
      && (id in s.demux.pool.table ==>
            s.demux.pool.table[id] < |s.demux.pool.all|
            && !NoRoom(s.demux.pool.all[s.demux.pool.table[id]], s.demux.inbox[0]))
      && s.demux.pool.demux
  {
    hide Agreed, Coupled, Flow;
    var w := WorldOf(s);
    NextItem(s.mux, s.demux);
    AgreedParts(w);
    SidesOf(w);
    ItemIds(w.mux, w.dtook);
    if s.demux.inbox[0].id in w.demux.table {
      DemuxTakes(w);
    }
  }

  lemma SidesOf(w: World)
    requires Agreed(w)
    ensures w.demux.demux && !w.mux.demux
  {
  }

  /** What a client owes never exceeds CLIENT_KARMA, so that the assertions of write_ack hold. */
  lemma OwesLittle(w: World, m: nat)
    requires Agreed(w) && 0 < m < |w.mux.all|
    ensures w.mux.all[m].rkarma <= CLIENT_KARMA
    ensures m in w.mate ==> w.demux.all[w.mate[m]].rkarma <= CLIENT_KARMA
  {
    assert InSession(w, m);
    SumBounds(w.mux.all[m], Other(w, m), ToDemux(w, m), ToMux(w, m));
  }

  lemma SumBounds(x: Client, y: Client, f: seq<Item>, g: seq<Item>)
    requires Session(x, y, f, g)
    ensures x.rkarma <= CLIENT_KARMA && y.rkarma <= CLIENT_KARMA
  {
    CreditsSign(f);
    CreditsSign(g);
  }

  lemma GoodAck(p: Pool, total: int)
    requires Tidy(p) && 0 <= total <= GLOBAL_KARMA
    requires forall h | 0 < h < |p.all| :: p.all[h].rkarma <= CLIENT_KARMA
    ensures GoodPacket(Packet.Ack(total, AckNotes(p, MAX_NOTES)))
  {
    AckNotesAre(p, MAX_NOTES);
    forall i | 0 <= i < |AckNotes(p, MAX_NOTES)|
      ensures GoodNote(AckNotes(p, MAX_NOTES)[i])
    {
      assert p.karmaQ[i] in p.karmaQ;
    }
  }

  lemma MuxGoodAck(s: Sys)
    requires Inv(s)
    ensures GoodPacket(NextAck(s.mux))
  {
    hide Coupled, Tidy, Shape, GoodPacket;
    var w := WorldOf(s);
    forall h | 0 < h < |w.mux.all|
      ensures w.mux.all[h].rkarma <= CLIENT_KARMA
    {
      OwesLittle(w, h);
    }
    CreditOf(s);
    GoodAck(w.mux, s.mux.wire.rstreamKarma);
  }

  lemma DemuxGoodAck(s: Sys)
    requires Inv(s)
    ensures GoodPacket(NextAck(s.demux))
  {
    hide Coupled, Tidy, GoodPacket;
    var w := WorldOf(s);
    forall h | 0 < h < |w.demux.all|
      ensures w.demux.all[h].rkarma <= CLIENT_KARMA
    {
      OwesLittle(w, w.pair[h]);
    }
    CreditOf(s);
    GoodAck(w.demux, s.demux.wire.rstreamKarma);
  }

  lemma CreditOf(s: Sys)
    requires Inv(s)
    ensures 0 <= s.mux.wire.streamKarma < GLOBAL_KARMA && 0 <= s.demux.wire.streamKarma < GLOBAL_KARMA
    ensures 0 <= s.mux.wire.rstreamKarma < GLOBAL_KARMA && 0 <= s.demux.wire.rstreamKarma < GLOBAL_KARMA
  {
    hide Agreed, Flow, Settled, Framed, Replayable, Buffered;
    CoupledCredit(s.mux.wire, s.demux.wire, s.link);
  }

  lemma CoupledCredit(x: Wire, y: Wire, l: Link)
    requires Coupled(x, y, l)
    ensures 0 <= x.streamKarma < GLOBAL_KARMA && 0 <= y.streamKarma < GLOBAL_KARMA
    ensures 0 <= x.rstreamKarma < GLOBAL_KARMA && 0 <= y.rstreamKarma < GLOBAL_KARMA
  {
    GlobalCredit(x, y, l.toDemux, l.toMux);
    GlobalCredit(y, x, l.toMux, l.toDemux);
  }

  lemma SizesGood(x: Wire, y: Wire, l: Link)
    requires Coupled(x, y, l)
    ensures |x.rin| == MESSAGE && !BadSize(x) && |y.rin| == MESSAGE && !BadSize(y)
  {
    HeaderTells(x, y, l.toDemux);
    HeaderTells(y, x, l.toMux);
  }

  /** In every state of every run, neither side takes a branch that gives up. */
  lemma NeverFails(s: Sys)
    requires Inv(s)
    ensures !Fails(s.mux) && !Fails(s.demux)
  {
    hide Coupled, Agreed, Flow, GoodPacket, AckNotes, Prompt;
    MuxGoodAck(s);
    DemuxGoodAck(s);
    CreditOf(s);
    SizesGood(s.mux.wire, s.demux.wire, s.link);
    if s.mux.inbox != [] {
      MuxInbox(s);
    }
    if s.demux.inbox != [] {
      DemuxInbox(s);
    }
  }

  /* ---- every step keeps the invariant ---- */

  lemma FlowStep(x: Node, y: Node, e: Event)
    requires Flow(x, y) && Flow(y, x) && CanStep(x, e) && !e.Ignores?
    requires InStep(y.wire, x.wire)
    requires OpensNext(x.wire, y.wire, e)
    ensures Flow(NodeState.Step(x, e), y) && Flow(y, NodeState.Step(x, e))
  {
    hide Flow, Encode, EncodeAll, GoodPacket, Collect, Acknowledge, Handle, Introduce, Accept, Do, Skip, AckNotes,
        Decode, Complete;
    var x' := NodeState.Step(x, e);
    match e
    case Acks =>
      AcknowledgeItems(x.pool);
      ComposeFlow(x, y, x', NextAck(x));
      SameReader(y, x, x');
    case Gathers(data, end) =>
      CollectItems(x.pool, data, end);
      if data != [] {
        ComposeFlow(x, y, x', Data(x.pool.all[x.pool.writeQ[0]].id, data));
      } else {
        ItemsEnd(x.pool.sent);
        SameWriter(x, y, x');
      }
      SameReader(y, x, x');
    case Opens =>
      OpenFlow(y, x);
      SameWriter(x, y, x');
    case Takes =>
      HandleSent(x.pool, x.inbox[0]);
      TakeFlow(y, x, x'.pool);
      SameWriter(x, y, x');
    case _ =>
      SentStays(x, e);
      SameWriter(x, y, x');
      SameReader(y, x, x');
  }

  lemma ItemsEnd(s: seq<Sent>)
    ensures Items(s) + [] == Items(s)
  {
  }

  lemma SameWriter(x: Node, y: Node, x': Node)
    requires Flow(x, y) && x'.wire.sent == x.wire.sent && Items(x'.pool.sent) == Items(x.pool.sent)
    ensures Flow(x', y)
  {
    assert |x'.pool.sent| == |Items(x'.pool.sent)|;
  }

  lemma SameReader(y: Node, x: Node, x': Node)
    requires Flow(y, x) && x'.wire.got == x.wire.got && x'.inbox == x.inbox && x'.taken == x.taken
    ensures Flow(y, x')
  {
  }

  lemma HandleSent(p: Pool, item: Item)
    requires item.id in p.table && p.table[item.id] < |p.all| && 0 < |p.all|
    ensures Handle(p, item).sent == p.sent
  {
  }

  lemma SentStays(x: Node, e: Event)
    requires CanStep(x, e) && !e.Acks? && !e.Gathers? && !e.Opens? && !e.Takes? && !e.Ignores?
    ensures var x' := NodeState.Step(x, e);
      && x'.wire.sent == x.wire.sent && x'.pool.sent == x.pool.sent
      && x'.wire.got == x.wire.got && x'.inbox == x.inbox && x'.taken == x.taken
  {
    hide PushWriter, Encode, Decode;
    if e.Gets? {
      PushAlike(x.pool, 0);
    } else if e.Meets? {
      IntroduceEffect(x.pool, x.inbox[0].id, e.outcome);
    } else if e.Joins? {
      AcceptEffect(x.pool, e.id);
    } else if e.Acts? {
      match e.act
      case Push(h) => PushAlike(x.pool, h);
      case _ =>
        ActSent(x.pool, e.act);
    }
  }

  lemma ActSent(p: Pool, a: Act)
    requires CanAct(p, a) && (a.Establish? || a.Drop? || a.Flush?)
    ensures Do(p, a).sent == p.sent
  {
    hide SetRkarma;
    match a
    case Drop(h) => DropEffect(p, h);
    case Flush(h, n) =>
      var c := p.all[h];
      SetRkarmaAlike(p, h, c.(out := c.out[n..], written := c.written + c.out[..n]), c.rkarma + n);
    case _ =>
  }

  lemma MuxWorld(s: Sys, e: Event)
    requires Inv(s) && CanStep(s.mux, e)
    ensures !e.Ignores? && !e.Meets?
    ensures Agreed(WorldOf(s.(mux := NodeState.Step(s.mux, e))))
  {
    hide Agreed, Coupled, Flow, CanCompose, NextWire, Complete, ItemsOf, AckNotes, CanGet, CanPut, CanRepay;
    hide Collect, Acknowledge, Handle, Accept, Introduce, Do, Skip, CanAct, CanCollect, CanSkip, CanAcknowledge,
        PushWriter, NoRoom;
    var w := WorldOf(s);
    SidesOf(w);
    if s.mux.inbox != [] {
      MuxInbox(s);
    }
    match e
    case Acks => MuxAcknowledges(w);
    case Gathers(data, end) => GatherIsAct(w.mux, data, end); MuxActs(w, Gather(data, end));
    case Passes => PassIsAct(w.mux); MuxActs(w, Pass);
    case Gets(bs) => PushIsAct(w.mux); MuxActs(w, Push(0));
    case Takes => MuxTakes(w);
    case Joins(id) => MuxAccepts(w, id);
    case Acts(a) => MuxActs(w, a);
    case _ =>
  }

  lemma GatherIsAct(p: Pool, data: seq<byte>, end: End)
    requires CanCollect(p, data, end)
    ensures CanAct(p, Gather(data, end)) && Do(p, Gather(data, end)) == Collect(p, data, end)
  {
  }

  lemma PassIsAct(p: Pool)
    requires CanSkip(p)
    ensures CanAct(p, Pass) && Do(p, Pass) == Skip(p)
  {
  }

  lemma PushIsAct(p: Pool)
    requires 0 < |p.all|
    ensures CanAct(p, Push(0)) && Do(p, Push(0)) == PushWriter(p, 0)
  {
  }

  function DemuxWorldAfter(s: Sys, e: Event): World
    requires CanStep(s.demux, e)
  {
    var n := NodeState.Step(s.demux, e);
    var w := WorldOf(s).(demux := n.pool, dtook := n.taken);
    if e.Meets? && s.demux.taken < |s.mux.pool.sent| then
      var m := s.mux.pool.sent[s.demux.taken].owner;
      w.(mate := s.mate[m := |s.demux.pool.all|], pair := s.pair + [m])
    else
      w
  }

  lemma DemuxWorld(s: Sys, e: Event)
    requires Inv(s) && CanStep(s.demux, e)
    ensures !e.Ignores? && !e.Joins?
    ensures e.Meets? ==> s.demux.taken < |s.mux.pool.sent|
    ensures Agreed(DemuxWorldAfter(s, e))
  {
    hide Agreed, Coupled, Flow, CanCompose, NextWire, Complete, ItemsOf, AckNotes, CanGet, CanPut, CanRepay;
    hide Collect, Acknowledge, Handle, Accept, Introduce, Do, Skip, CanAct, CanCollect, CanSkip, CanAcknowledge,
        PushWriter, NoRoom;
    var w := WorldOf(s);
    SidesOf(w);
    if s.demux.inbox != [] {
      DemuxInbox(s);
    }
    match e
    case Acks => DemuxAcknowledges(w);
    case Gathers(data, end) => GatherIsAct(w.demux, data, end); DemuxActs(w, Gather(data, end));
    case Passes => PassIsAct(w.demux); DemuxActs(w, Pass);
    case Gets(bs) => PushIsAct(w.demux); DemuxActs(w, Push(0));
    case Meets(outcome) => DemuxMeets(w, outcome);
    case Takes => DemuxTakes(w);
    case Acts(a) => DemuxActs(w, a);
    case _ =>
  }

  lemma HealthOf(s: Sys)
    requires Inv(s)
    ensures Healthy(s.mux) && Healthy(s.demux)
    ensures InStep(s.mux.wire, s.demux.wire) && InStep(s.demux.wire, s.mux.wire)
  {
  }

  lemma MuxKeeps(s: Sys, e: Event)
    requires Inv(s) && Enabled(s, Mux(e))
    ensures Inv(Next(s, Mux(e)))
  {
    hide Healthy, Agreed, Sound, Half, Flow, CanStep, Output, NextWire, NextPool, InStep, Tidy;
    HealthOf(s);
    MuxWorld(s, e);
    var l := s.link;
    WireStep(s.mux, s.demux.wire, e, l.linked, l.toDemux, l.toMux, l.demuxPos, l.muxPos);
    StepConn(s.mux, e);
    OpensSign(s.mux, s.demux.wire, e);
    Credited(s.mux);
    StepHealthy(s.mux, e);
    PromptOf(NodeState.Step(s.mux, e));
    FlowStep(s.mux, s.demux, e);
  }

  lemma OpensSign(x: Node, y: Wire, e: Event)
    requires Sound(y) && CanStep(x, e)
    requires OpensNext(x.wire, y, e)
    ensures e.Opens? ==> Acked(Decode(x.wire.rin)) >= 0
  {
    hide Decode;
    if e.Opens? {
      AckedSign(y, |x.wire.got|);
    }
  }

  lemma PromptOf(n: Node)
    requires Healthy(n)
    ensures Prompt(n)
  {
  }

  lemma DemuxKeeps(s: Sys, e: Event)
    requires Enabled(s, Demux(e)) && Inv(s)
    ensures Inv(Next(s, Demux(e)))
  {
    hide Healthy, Agreed, Sound, Half, Flow, CanStep, Output, NextWire, NextPool, InStep, Tidy;
    HealthOf(s);
    DemuxWorld(s, e);
    var l := s.link;
    WireStep(s.demux, s.mux.wire, e, l.linked, l.toMux, l.toDemux, l.muxPos, l.demuxPos);
    StepConn(s.demux, e);
    OpensSign(s.demux, s.mux.wire, e);
    Credited(s.demux);
    StepHealthy(s.demux, e);
    PromptOf(NodeState.Step(s.demux, e));
    FlowStep(s.demux, s.mux, e);
  }

  /** Breaks, dials and handshakes leave clients and packets alone. */
  lemma LinkKeeps(s: Sys, step: Step)
    requires Inv(s) && Enabled(s, step) && !step.Mux? && !step.Demux?
    ensures Inv(Next(s, step))
  {
    hide Agreed, Coupled, Items, AllItems;
    match step
    case Dial => DialKeeps(s.mux.wire, s.demux.wire, s.link);
    case Answer => AcceptKeeps(s.mux.wire, s.demux.wire, s.link);
    case AnswerLate(pos, kept) => StaleAcceptKeeps(s.mux.wire, s.demux.wire, s.link, pos, kept);
    case MuxShakes(pos) => MuxShakeKeeps(s.mux.wire, s.demux.wire, s.link, pos);
    case DemuxShakes => DemuxShakeKeeps(s.mux.wire, s.demux.wire, s.link);
    case MuxBreaks(kept) => MuxBreakKeeps(s.mux.wire, s.demux.wire, s.link, kept);
    case DemuxBreaks(kept) => DemuxBreakKeeps(s.mux.wire, s.demux.wire, s.link, kept);
    case _ =>
  }

  lemma NextKeeps(s: Sys, step: Step)
    requires Inv(s) && Enabled(s, step)
    ensures Inv(Next(s, step))
  {
    hide Inv, Enabled, Next;
    match step
    case Mux(e) => MuxKeeps(s, e);
    case Demux(e) => DemuxKeeps(s, e);
    case _ => LinkKeeps(s, step);
  }
}
