/**
 Runs of one endpoint, its main connection included: what the methods of a mux_context are proved to
 perform.
 */
module Traces {
  import opened NetBytes
  import opened Ring
  import opened Packets
  import opened WireState
  import opened PoolState
  import opened NodeState

  datatype Happening =
    | Does(e: Event)
    | Dials
    | Shakes(pos: int)
    | Breaks

  predicate CanHappen(n: Node, h: Happening) {
    match h
    case Does(e) => CanStep(n, e)
    case Dials => n.wire.conn.Down?
    case Shakes(pos) => n.wire.conn.Dialing? && GoodPosition(n.wire.streamPos, pos)
    case Breaks => true
  }

  function After(n: Node, h: Happening): Node
    requires CanHappen(n, h)
  {
    match h
    case Does(e) => NodeState.Step(n, e)
    case Dials => n.(wire := n.wire.(conn := Dialing))
    case Shakes(pos) => n.(wire := Shake(n.wire, pos))
    case Breaks => n.(wire := n.wire.(conn := Down))
  }

  /** The happenings in log lead from one node to another. */
  ghost predicate Leads(from: Node, log: seq<Happening>, to: Node)
    decreases |log|
  {
    if log == [] then from == to
    else
      var last := |log| - 1;
      exists n :: Leads(from, log[..last], n) && Goes(n, log[last], to)
  }

  predicate Goes(n: Node, h: Happening, m: Node) {
    CanHappen(n, h) && m == After(n, h)
  }

  lemma Happens(n: Node, e: Event)
    requires CanStep(n, e)
    ensures Goes(n, Does(e), NodeState.Step(n, e))
  {
    hide NodeState.Step, CanStep;
  }

  lemma LeadsHere(n: Node)
    ensures Leads(n, [], n)
  {
    hide Goes;
  }

  lemma Extended(from: Node, log: seq<Happening>, n: Node, h: Happening, m: Node)
    requires Leads(from, log, n) && Goes(n, h, m)
    ensures Leads(from, log + [h], m)
  {
    hide Goes;
    assert (log + [h])[..|log|] == log;
  }

  lemma AfterHealthy(n: Node, h: Happening)
    requires Healthy(n) && CanHappen(n, h)
    requires h.Does? && h.e.Opens? ==> n.wire.streamKarma + Acked(Decode(n.wire.rin)) >= 0
    ensures Healthy(After(n, h))
  {
    hide Tidy, NodeState.Step, CanStep, Decode, RingHolds, EncodeAll, GoodPackets, AckTotal;
    match h
    case Does(e) => StepHealthy(n, e);
    case _ =>
  }

  /* ---- what mainw leaves alone ---- */

  ghost predicate OnlyControl(q: seq<nat>) {
    forall i | 0 <= i < |q| :: q[i] == 0
  }

  /** Clients keep what waits for their sockets, and none comes up or is burned unless its peer has gone. */
  ghost predicate CalmClients(p: Pool, q: Pool) {
    && |q.all| == |p.all| && q.demux == p.demux
    && (forall h | 0 <= h < |p.all| ::
          && q.all[h].out == p.all[h].out && q.all[h].connecting == p.all[h].connecting && q.all[h].id == p.all[h].id
          && (q.all[h].up ==> p.all[h].up)
          && (!p.all[h].rdead ==> !q.all[h].rdead && q.all[h].burned == p.all[h].burned))
  }

  /** With only the control client queued, moreover, none goes down. */
  ghost predicate Calm(p: Pool, q: Pool) {
    && CalmClients(p, q)
    && (OnlyControl(p.writeQ) ==> OnlyControl(q.writeQ) && forall h | 0 <= h < |p.all| :: q.all[h].up == p.all[h].up)
  }

  /** Nothing that mainr is in the middle of has changed. */
  ghost predicate Aside(n: Node, m: Node) {
    && m.inbox == n.inbox && m.taken == n.taken
    && m.wire.rin == n.wire.rin && m.wire.rpos == n.wire.rpos && m.wire.heard == n.wire.heard &&
        m.wire.got == n.wire.got
    && Calm(n.pool, m.pool)
  }

  lemma CalmOn(p: Pool, q: Pool, r: Pool)
    requires Calm(p, q) && Calm(q, r)
    ensures Calm(p, r)
  {
  }

  lemma AsideOn(n: Node, m: Node, o: Node)
    requires Aside(n, m) && Aside(m, o)
    ensures Aside(n, o)
  {
    hide Calm;
    CalmOn(n.pool, m.pool, o.pool);
  }

  lemma AsideHere(n: Node)
    ensures Aside(n, n)
  {
  }

  lemma TakeNoteCalm(p: Pool)
    requires p.karmaQ != [] && p.karmaQ[0] < |p.all|
    ensures Calm(p, TakeNote(p)) && TakeNote(p).writeQ == p.writeQ
  {
  }

  lemma {:induction false} TakeNotesCalm(p: Pool, k: nat)
    ensures Calm(p, TakeNotes(p, k)) && TakeNotes(p, k).writeQ == p.writeQ
    decreases k
  {
    if k != 0 && p.karmaQ != [] && p.karmaQ[0] < |p.all| {
      hide Calm, TakeNote;
      TakeNoteCalm(p);
      TakeNotesCalm(TakeNote(p), k - 1);
      CalmOn(p, TakeNote(p), TakeNotes(TakeNote(p), k - 1));
    }
  }

  lemma RequeueCalm(p: Pool, again: bool)
    requires p.writeQ != [] && p.writeQ[0] < |p.all|
    ensures Calm(p, Requeue(Pop(p), p.writeQ[0], again))
  {
  }

  lemma AcknowledgeCalm(p: Pool)
    requires CanAcknowledge(p)
    ensures Calm(p, Acknowledge(p))
  {
    hide Calm;
    var q := TakeNotes(p, MAX_NOTES);
    TakeNotesCalm(p, MAX_NOTES);
    TakeNotesSize(p, MAX_NOTES);
    RequeueCalm(q, q.karmaQ != []);
    CalmOn(p, q, Acknowledge(p));
  }

  lemma CollectCalm(p: Pool, data: seq<byte>, end: End)
    requires CanCollect(p, data, end)
    ensures Calm(p, Collect(p, data, end))
  {
    hide Disconnect, Collect, Requeue, CalmClients;
    DisconnectSize(Pop(p), p.writeQ[0]);
    var h := p.writeQ[0];
    var r := if end.Broken? && data == [] then Disconnect(Pop(p), h) else Pop(p);
    var c := r.all[h].(wkarma := r.all[h].wkarma - |data|, read := r.all[h].read + data);
    CollectIs(p, data, end, r, c);
    var t := Set(r, h, c).(sent := if data == [] then r.sent else r.sent + [Sent(Payload(c.id, data), h)]);
    DisconnectCalm(Pop(p), h);
    PopCalm(p);
    GatherCalm(r, h, c, t.sent, end.Filled? && c.wkarma > 0);
    CalmClientsOn(p, Pop(p), r);
    CalmClientsOn(p, r, Collect(p, data, end));
  }

  lemma PopCalm(p: Pool)
    requires p.writeQ != []
    ensures CalmClients(p, Pop(p))
  {
  }

  lemma GatherCalm(p: Pool, h: nat, c: Client, sent: seq<Sent>, again: bool)
    requires h < |p.all| && c == p.all[h].(wkarma := c.wkarma, read := c.read)
    ensures CalmClients(p, Requeue(Set(p, h, c).(sent := sent), h, again))
  {
  }

  lemma CalmClientsOn(p: Pool, q: Pool, r: Pool)
    requires CalmClients(p, q) && CalmClients(q, r)
    ensures CalmClients(p, r)
  {
  }

  lemma DisconnectCalm(p: Pool, h: nat)
    requires 0 < |p.all| && h < |p.all|
    ensures CalmClients(p, Disconnect(p, h)) && CalmClients(p, p)
  {
  }

  /** mainw does nothing but this. */
  lemma WritingAside(n: Node, e: Event)
    requires CanStep(n, e) && (e.Acks? || e.Gathers? || e.Passes? || e.Puts? || e.Repays?)
    ensures Aside(n, NodeState.Step(n, e))
  {
    hide Calm, Acknowledge, Collect, AckNotes, Laid, Encode;
    match e
    case Acks => AcknowledgeCalm(n.pool);
    case Gathers(data, end) => CollectCalm(n.pool, data, end);
    case Passes => RequeueCalm(n.pool, false);
    case Puts(k) => CalmHere(n.pool);
    case Repays(k) => CalmHere(n.pool);
  }

  lemma CalmHere(p: Pool)
    ensures Calm(p, p)
  {
  }

  lemma RepaysIs(n: Node, k: nat)
    requires CanStep(n, Repays(k))
    ensures CanRepay(n.wire, k) && NodeState.Step(n, Repays(k)) == n.(wire := Repay(n.wire, k))
  {
    hide CanRepay, Repay;
  }

  lemma PutsIs(n: Node, k: nat)
    requires CanStep(n, Puts(k))
    ensures CanPut(n.wire, k) && |n.wire.stream| == GLOBAL_KARMA && n.wire.streamPos < GLOBAL_KARMA &&
        |n.wire.pending| <= MESSAGE
    ensures NodeState.Step(n, Puts(k)) == n.(wire := Put(n.wire, k))
  {
    hide CanPut, Put;
  }

  lemma PassesIs(n: Node)
    requires CanStep(n, Passes)
    ensures CanSkip(n.pool) && NodeState.Step(n, Passes) == n.(pool := Skip(n.pool)) &&
        Skip(n.pool) == Requeue(Pop(n.pool), n.pool.writeQ[0], false)
  {
    hide Requeue;
  }

  lemma TidyQueues(n: Node)
    requires Healthy(n)
    ensures Tidy(n.pool) && Sound(n.wire) && Distinct(n.pool.writeQ) && Distinct(n.pool.karmaQ)
  {
  }

  lemma CanPass(n: Node)
    requires CanSkip(n.pool) && n.wire.conn.Ready? && n.wire.pending == []
    ensures CanStep(n, Passes)
  {
    hide CanSkip;
  }

  lemma AcksIs(n: Node)
    requires CanStep(n, Acks)
    ensures CanAcknowledge(n.pool) && CanCompose(n.wire, NextAck(n))
    ensures NodeState.Step(n, Acks) == n.(wire := Compose(n.wire, NextAck(n)), pool := Acknowledge(n.pool))
  {
    hide CanAcknowledge, CanCompose, Acknowledge, Compose;
  }

  lemma GathersIs(n: Node, data: seq<byte>, end: End)
    requires CanStep(n, Gathers(data, end))
    ensures CanCollect(n.pool, data, end)
    ensures var m := NodeState.Step(n, Gathers(data, end));
      && m == n.(wire := m.wire, pool := Collect(n.pool, data, end))
      && (data == [] ==> m.wire == n.wire)
      && (data != [] ==>
            var p := Data(n.pool.all[n.pool.writeQ[0]].id, data);
            CanCompose(n.wire, p) && m.wire == Compose(n.wire, p))
  {
    hide CanCompose, Collect, Compose;
  }

  /* ---- write_ack, pair by pair ---- */

  /** After some turns of its loop on p the loop has come to r and written `notes`. */
  ghost predicate Noting(p: Pool, r: Pool, notes: seq<Note>) {
    && Tidy(r) && |notes| <= MAX_NOTES
    && AckNotes(p, MAX_NOTES) == notes + AckNotes(r, MAX_NOTES - |notes|)
    && TakeNotes(p, MAX_NOTES) == TakeNotes(r, MAX_NOTES - |notes|)
    && (forall i | 0 <= i < |notes| :: GoodNote(notes[i]))
    && r.writeQ == p.writeQ && |r.all| == |p.all|
  }

  lemma NotingStart(p: Pool)
    requires Tidy(p)
    ensures Noting(p, p, [])
  {
    hide Tidy;
    assert [] + AckNotes(p, MAX_NOTES) == AckNotes(p, MAX_NOTES);
  }

  lemma NotingHead(p: Pool, r: Pool, notes: seq<Note>)
    requires Noting(p, r, notes) && r.karmaQ != []
    ensures 0 < r.karmaQ[0] < |r.all| && Distinct(r.karmaQ)
    ensures var c := r.all[r.karmaQ[0]]; (c.rkarma == -1 || c.rkarma >= ACK_THRESHOLD) && (c.rdead ==> c.rkarma == -1)
    ensures r.writeQ != [] ==> Pop(r).karmaQ == r.karmaQ && Pop(r).all == r.all && TakeNote(Pop(r)) == Pop(TakeNote(r))
  {
    hide AckNotes, TakeNotes;
    KarmaHead(r);
  }

  lemma NotingBad(n: Node, r: Pool, notes: seq<Note>)
    requires Noting(n.pool, r, notes) && r.karmaQ != [] && r.karmaQ[0] < |r.all| && |notes| < MAX_NOTES
    requires r.all[r.karmaQ[0]].rkarma > CLIENT_KARMA
    ensures !GoodPacket(NextAck(n))
  {
    hide Tidy, TakeNotes;
    assert !GoodNote(AckNotes(n.pool, MAX_NOTES)[|notes|]);
  }

  lemma NotingStep(p: Pool, r: Pool, notes: seq<Note>)
    requires Noting(p, r, notes) && r.karmaQ != [] && r.karmaQ[0] < |r.all| && |notes| < MAX_NOTES
    requires r.all[r.karmaQ[0]].rkarma <= CLIENT_KARMA
    ensures Noting(p, TakeNote(r), notes + [Note(r.all[r.karmaQ[0]].id, r.all[r.karmaQ[0]].rkarma)])
    ensures TakeNote(r).writeQ == r.writeQ
  {
    hide Tidy, Sane, TakeNote, Calm;
    TakeNotesCalm(r, 1);
    KarmaHead(r);
    TakeNoteTidy(r);
    TakeNotesSize(r, 1);
    var note := Note(r.all[r.karmaQ[0]].id, r.all[r.karmaQ[0]].rkarma);
    KarmaIsGood(r);
    assert notes + ([note] + AckNotes(TakeNote(r), MAX_NOTES - |notes| - 1)) ==
        (notes + [note]) + AckNotes(TakeNote(r), MAX_NOTES - |notes| - 1);
    assert TakeNotes(TakeNote(r), 0) == TakeNote(r);
  }

  lemma KarmaIsGood(r: Pool)
    requires Tidy(r) && r.karmaQ != [] && r.karmaQ[0] < |r.all| && r.all[r.karmaQ[0]].rkarma <= CLIENT_KARMA
    ensures GoodNote(Note(r.all[r.karmaQ[0]].id, r.all[r.karmaQ[0]].rkarma))
  {
    hide Tidy;
    KarmaHead(r);
  }

  lemma NotingEnd(n: Node, r: Pool, notes: seq<Note>)
    requires Noting(n.pool, r, notes) && (r.karmaQ == [] || |notes| == MAX_NOTES)
    requires CanAcknowledge(n.pool) && n.wire.conn.Ready? && n.wire.pending == [] &&
        0 <= n.wire.rstreamKarma <= GLOBAL_KARMA
    ensures NextAck(n) == Ack(n.wire.rstreamKarma, notes) && CanStep(n, Acks) && !AckFails(n)
    ensures r.writeQ != [] && 0 < |r.all| && Acknowledge(n.pool) == Requeue(Pop(r), 0, r.karmaQ != [])
  {
    hide Tidy, GoodNote;
    assert AckNotes(r, MAX_NOTES - |notes|) == [];
    assert notes + [] == notes;
  }

  lemma TotalBad(n: Node)
    requires CanAcknowledge(n.pool) && n.wire.pending == [] && !(0 <= n.wire.rstreamKarma <= GLOBAL_KARMA)
    ensures AckFails(n)
  {
  }

  lemma Bad(n: Node)
    requires CanAcknowledge(n.pool) && n.wire.pending == [] && !GoodPacket(NextAck(n))
    ensures AckFails(n)
  {
  }

  lemma Acknowledges(n: Node)
    requires Tidy(n.pool) && n.pool.writeQ != [] && n.pool.writeQ[0] == 0
    ensures CanAcknowledge(n.pool)
  {
  }

  lemma NotingQueue(p: Pool, r: Pool, notes: seq<Note>)
    requires Noting(p, r, notes) && CanAcknowledge(p)
    ensures r.writeQ != [] && Distinct(r.writeQ[1..]) && 0 !in r.writeQ[1..]
  {
    Popped(r.writeQ);
  }

  lemma CanGather(n: Node, data: seq<byte>, end: End)
    requires Healthy(n) && n.wire.conn.Ready? && n.wire.pending == [] && n.pool.writeQ != []
    requires 0 < n.pool.writeQ[0] < |n.pool.all|
    requires var c := n.pool.all[n.pool.writeQ[0]];
      && c.up && !c.burned
      && var room := if VPACKETSIZE < c.wkarma then VPACKETSIZE else c.wkarma;
      if end.Filled? then |data| == room else |data| < room
    ensures CanStep(n, Gathers(data, end))
  {
    SaneAt(n.pool, n.pool.writeQ[0]);
    Positive(n.pool, n.pool.writeQ[0]);
    hide Tidy, Sound;
  }

  lemma Positive(p: Pool, h: nat)
    requires Tidy(p) && h < |p.all|
    ensures 0 <= p.all[h].wkarma && (h == 0 <==> p.all[h].id == 0) && 0 <= p.all[h].id < MAX_CLIENTS
  {
  }

  lemma CanWrite(n: Node, k: nat)
    requires Healthy(n) && n.wire.conn.Ready? && n.wire.debt == 0 && 1 <= k <= |n.wire.pending| &&
        k <= n.wire.streamKarma
    ensures CanStep(n, Puts(k))
  {
    hide Tidy;
  }

  lemma CanAbsolve(n: Node, k: nat)
    requires Healthy(n) && n.wire.conn.Ready? && n.wire.debt > 0 && 1 <= k <= RepayRoom(n.wire)
    ensures CanStep(n, Repays(k))
  {
    hide Tidy;
  }

  /* ---- why mainw comes to an end ---- */

  /** The clients on the write list, the control client aside. */
  function Others(q: seq<nat>): nat {
    if q == [] then 0 else (if q[0] == 0 then 0 else 1) + Others(q[1..])
  }

  lemma {:induction false} OthersAndControl(q: seq<nat>)
    ensures Others(q + [0]) == Others(q)
  {
    if q == [] {
      assert [0][1..] == [];
      assert Others([0]) == 0 + Others([0][1..]);
    } else {
      assert (q + [0])[1..] == q[1..] + [0];
      OthersAndControl(q[1..]);
    }
  }

  /** A turn that brings nothing to write leaves fewer clients on the list. */
  lemma EmptyTurn(n: Node, e: Event)
    requires CanStep(n, e) && n.pool.writeQ != [] && n.pool.writeQ[0] != 0
    requires e.Passes? || (e.Gathers? && e.data == [])
    ensures Others(NodeState.Step(n, e).pool.writeQ) < Others(n.pool.writeQ)
    ensures NodeState.Step(n, e).wire == n.wire
  {
    OthersAndControl(n.pool.writeQ[1..]);
    hide Others;
    if e.Passes? {
    } else {
      EmptyCollect(n.pool, e.end);
    }
  }

  lemma EmptyCollect(p: Pool, end: End)
    requires CanCollect(p, [], end)
    ensures Collect(p, [], end).writeQ == p.writeQ[1..] || Collect(p, [], end).writeQ == p.writeQ[1..] + [0]
  {
  }

  /** What one step of mainw does to the packet in wout and to the credit. */
  lemma WritesLess(n: Node, k: nat)
    requires CanStep(n, Puts(k))
    ensures var w := NodeState.Step(n, Puts(k)).wire;
      w.conn == n.wire.conn && w.debt == n.wire.debt && w.pending == n.wire.pending[k..] &&
          w.streamKarma == n.wire.streamKarma - k
    ensures NodeState.Step(n, Puts(k)).pool == n.pool
  {
    hide Laid;
  }

  lemma OwesLess(n: Node, k: nat)
    requires CanStep(n, Repays(k))
    ensures var w := NodeState.Step(n, Repays(k)).wire;
      w.conn == n.wire.conn && w.debt == n.wire.debt - k && w.pending == n.wire.pending &&
          w.streamKarma == n.wire.streamKarma
    ensures NodeState.Step(n, Repays(k)).pool == n.pool
  {
  }

  lemma ComposesOnly(n: Node, e: Event)
    requires CanStep(n, e) && (e.Acks? || e.Gathers? || e.Passes?)
    ensures var w := NodeState.Step(n, e).wire;
      w.conn == n.wire.conn && w.debt == n.wire.debt && w.streamKarma == n.wire.streamKarma
  {
    hide Encode, AckNotes, CanStep;
  }

  lemma GoesOn(n: Node, h: Happening)
    requires CanHappen(n, h)
    ensures Goes(n, h, After(n, h))
  {
  }

  lemma DebtInRange(n: Node)
    requires Healthy(n)
    ensures 0 <= n.wire.debt < GLOBAL_KARMA && 0 <= n.wire.streamKarma
  {
  }

  lemma ItBreaks(n: Node)
    ensures CanHappen(n, Breaks) && After(n, Breaks) == n.(wire := n.wire.(conn := Down))
    ensures Aside(n, After(n, Breaks))
  {
    CalmHere(n.pool);
    hide Calm;
  }

  lemma ItDials(n: Node)
    requires n.wire.conn.Down?
    ensures CanHappen(n, Dials) && After(n, Dials) == n.(wire := n.wire.(conn := Dialing))
    ensures Aside(n, After(n, Dials))
  {
    CalmHere(n.pool);
    hide Calm;
  }

  lemma Skips(n: Node)
    requires n.pool.writeQ != [] && 0 < n.pool.writeQ[0] < |n.pool.all|
    requires n.pool.all[n.pool.writeQ[0]].burned || !n.pool.all[n.pool.writeQ[0]].up
    ensures CanSkip(n.pool)
  {
  }

  /* ---- what mainr, clientr and clientw do ---- */

  lemma PushIs(n: Node, h: nat)
    requires Healthy(n) && h < |n.pool.all|
    ensures CanStep(n, Acts(Push(h))) && NodeState.Step(n, Acts(Push(h))) == n.(pool := PushWriter(n.pool, h))
  {
    hide Tidy, Sound, PushWriter;
  }

  lemma DropIs(n: Node, h: nat)
    requires Healthy(n) && 0 < h < |n.pool.all| && n.pool.all[h].up
    ensures CanStep(n, Acts(Drop(h))) && NodeState.Step(n, Acts(Drop(h))) == n.(pool := Disconnect(n.pool, h))
  {
    hide Tidy, Sound, Disconnect;
  }

  lemma EstablishIs(n: Node, h: nat)
    requires Healthy(n) && 0 < h < |n.pool.all| && n.pool.all[h].up
    ensures CanStep(n, Acts(Establish(h)))
    ensures NodeState.Step(n, Acts(Establish(h))) == n.(pool := Set(n.pool, h, n.pool.all[h].(connecting := false)))
  {
    hide Tidy, Sound;
  }

  lemma FlushIs(n: Node, h: nat, k: nat)
    requires Healthy(n) && 0 < h && CanDeliver(n.pool, h, k)
    ensures CanStep(n, Acts(Flush(h, k))) && NodeState.Step(n, Acts(Flush(h, k))) == n.(pool := Deliver(n.pool, h, k))
  {
    hide Tidy, Sound, Deliver;
  }

  lemma GetsIs(n: Node, bs: seq<byte>)
    requires Healthy(n) && n.inbox == [] && CanGet(n.wire, bs)
    ensures CanStep(n, Gets(bs)) && 0 < |n.pool.all| && n.wire.rstreamPos < GLOBAL_KARMA
    ensures NodeState.Step(n, Gets(bs)) ==
      n.(wire := Get(n.wire, bs), pool := if n.wire.rstreamKarma + |bs| >= ACK_THRESHOLD then PushWriter(n.pool, 0)
          else n.pool)
  {
    hide Get, CanGet, PushWriter, ClientsOk, TableOk, WriteListOk, KarmaListOk, Framed, Replayable, Buffered;
  }

  lemma OpensIs(n: Node)
    requires n.inbox == [] && Complete(n.wire)
    ensures CanStep(n, Opens)
    ensures NodeState.Step(n, Opens) == n.(wire := Open(n.wire), inbox := ItemsOf(Decode(n.wire.rin)))
  {
    hide Decode, Open;
  }

  lemma MeetsIs(n: Node, outcome: Outcome)
    requires Healthy(n) && n.pool.demux && n.inbox != [] && 0 < n.inbox[0].id < MAX_CLIENTS &&
        n.inbox[0].id !in n.pool.table
    ensures CanStep(n, Meets(outcome))
    ensures NodeState.Step(n, Meets(outcome)) == n.(pool := Introduce(n.pool, n.inbox[0].id, outcome))
  {
    hide Introduce, Sound, ClientsOk, TableOk, WriteListOk, KarmaListOk;
  }

  lemma TakesIs(n: Node)
    requires Healthy(n) && n.inbox != [] && 0 < n.inbox[0].id && n.inbox[0].id in n.pool.table
    ensures 0 < n.pool.table[n.inbox[0].id] < |n.pool.all|
    ensures !NoRoom(n.pool.all[n.pool.table[n.inbox[0].id]], n.inbox[0]) ==>
      && CanStep(n, Takes)
      && NodeState.Step(n, Takes) == n.(pool := Handle(n.pool, n.inbox[0]), inbox := n.inbox[1..], taken := n.taken + 1)
  {
    Entry(n.pool, n.inbox[0].id);
    hide Handle, Sound, Tidy;
  }

  lemma IgnoresIs(n: Node)
    requires n.inbox != [] && n.inbox[0].Credit? && Unknown(n)
    ensures CanStep(n, Ignores)
    ensures NodeState.Step(n, Ignores) == n.(inbox := n.inbox[1..], taken := n.taken + 1)
  {
  }

  lemma JoinsIs(n: Node, id: int)
    requires Healthy(n) && !n.pool.demux && 0 < id < MAX_CLIENTS && IsLowestFree(n.pool.table, id)
    ensures CanStep(n, Joins(id)) && NodeState.Step(n, Joins(id)) == n.(pool := Accept(n.pool, id))
  {
    hide Accept, Sound, ClientsOk, TableOk, WriteListOk, KarmaListOk, IsLowestFree;
  }

  lemma TidyReadyHere(n: Node)
    requires Healthy(n)
    ensures Distinct(n.pool.writeQ) && Distinct(n.pool.karmaQ) && Tidy(n.pool)
    ensures forall h | 0 <= h < |n.pool.all| :: n.pool.all[h].queued <==> h in n.pool.writeQ
  {
  }

  /** The packet being read and the items to be handled are the same. */
  predicate SameReading(n: Node, m: Node) {
    m.inbox == n.inbox && m.taken == n.taken && SameStream(n, m)
  }

  predicate SameStream(n: Node, m: Node) {
    && m.wire.rin == n.wire.rin && m.wire.rpos == n.wire.rpos && m.wire.heard == n.wire.heard &&
        m.wire.got == n.wire.got
    && m.pool.demux == n.pool.demux
  }

  lemma AsideReads(n: Node, m: Node)
    requires Aside(n, m)
    ensures SameReading(n, m)
  {
  }

  /** Neither announcing nor hanging up a client changes the side. */
  lemma SameSide(p: Pool, a: Act)
    requires CanAct(p, a) && (a.Push? || a.Establish? || a.Drop?)
    ensures Do(p, a).demux == p.demux
  {
    if a.Drop? {
      DisconnectDemux(p, a.h);
    }
    hide Disconnect;
  }

  /** What muxloop's events and the try at mainw behind them leave alone. */
  lemma ReadsOn(n: Node, e: Event, o: Node)
    requires CanStep(n, e) && Aside(NodeState.Step(n, e), o)
    requires e.Joins? || (e.Acts? && (e.act.Push? || e.act.Establish? || e.act.Drop?))
    ensures SameReading(n, o)
  {
    if e.Acts? {
      SameSide(n.pool, e.act);
    }
    hide Do, Calm, CanAct;
  }

  lemma ReadingOn(n: Node, m: Node, o: Node)
    requires SameReading(n, m) && SameReading(m, o)
    ensures SameReading(n, o)
  {
  }

  lemma ReadingHere(n: Node)
    ensures SameReading(n, n)
  {
  }

  /** A client that clientw writes for stays up through the try at mainw that its acknowledgment may set off. */
  lemma StillUp(n: Node, m: Node, o: Node, h: nat, k: nat)
    requires Healthy(n) && Healthy(o) && 0 < h && CanDeliver(n.pool, h, k) && m == n.(pool := Deliver(n.pool, h, k))
    requires Aside(m, o) && (o == m || m.pool.writeQ == [0])
    ensures SameReading(n, o) && h < |o.pool.all| == |n.pool.all|
    ensures var c := o.pool.all[h]; c.up && !c.burned && !c.connecting && c.out == n.pool.all[h].out[k..]
  {
    Delivers(n.pool, h, k);
    hide Deliver, Sound, TableOk, WriteListOk, KarmaListOk;
    SaneAt(o.pool, h);
  }

  lemma Delivers(p: Pool, h: nat, k: nat)
    requires CanDeliver(p, h, k) && 0 < |p.all|
    ensures var q := Deliver(p, h, k); |q.all| == |p.all| && q.demux == p.demux
    ensures var c := Deliver(p, h, k).all[h]; c.up && !c.connecting && c.out == p.all[h].out[k..]
  {
  }

  lemma HangsUp(n: Node, m: Node, h: nat)
    requires 0 < h < |n.pool.all| && Aside(n.(pool := Disconnect(n.pool, h)), m)
    ensures SameReading(n, m)
    ensures h < |m.pool.all| && !m.pool.all[h].up
  {
    DisconnectSize(n.pool, h);
    DisconnectDemux(n.pool, h);
    DisconnectDown(n.pool, h);
    hide Disconnect;
  }

  lemma DisconnectDown(p: Pool, h: nat)
    requires 0 < |p.all| && h < |p.all|
    ensures h < |Disconnect(p, h).all| && !Disconnect(p, h).all[h].up
  {
  }

  lemma DisconnectDemux(p: Pool, h: nat)
    requires 0 < |p.all| && h < |p.all|
    ensures Disconnect(p, h).demux == p.demux
  {
  }

  lemma MayDeliver(p: Pool, h: nat, k: nat)
    requires h < |p.all| && p.all[h].up && !p.all[h].burned && !p.all[h].connecting && 1 <= k <= |p.all[h].out|
    ensures CanDeliver(p, h, k)
  {
  }

  lemma StreamOn(n: Node, m: Node, o: Node)
    requires SameStream(n, m) && SameStream(m, o)
    ensures SameStream(n, o)
  {
  }

  lemma ReadingStream(n: Node, m: Node)
    requires SameReading(n, m)
    ensures SameStream(n, m) && m.inbox == n.inbox && m.taken == n.taken
  {
  }

  lemma StreamHere(n: Node, m: Node)
    requires m.wire == n.wire && m.pool.demux == n.pool.demux
    ensures SameStream(n, m)
  {
  }

  /** A client just met is in the table, even after the try at mainw that its refusal may set off. */
  lemma Introduces(n: Node, o: Node, id: int, outcome: Outcome)
    requires Healthy(n) && Healthy(o) && 0 < id < MAX_CLIENTS && id !in n.pool.table
    requires Aside(n.(pool := Introduce(n.pool, id, outcome)), o)
    ensures id in o.pool.table && o.pool.table[id] == |n.pool.all| && SameReading(n, o)
  {
    hide Sound;
    IntroduceTidy(n.pool, id, outcome);
    Newest(n.pool, id, outcome);
    hide Introduce, ControlOk, ClientsOk, WriteListOk, KarmaListOk;
    var h := |n.pool.all|;
    assert o.pool.all[h].id == id && !o.pool.all[h].burned;
  }

  lemma Newest(p: Pool, id: int, outcome: Outcome)
    requires 0 < |p.all|
    ensures var q := Introduce(p, id, outcome); |q.all| == |p.all| + 1 && q.demux == p.demux
    ensures var c := Introduce(p, id, outcome).all[|p.all|]; c.id == id && !c.burned && !c.rdead
  {
  }

  lemma HandleDemux(p: Pool, item: Item)
    requires item.id in p.table && p.table[item.id] < |p.all| && 0 < |p.all|
    ensures Handle(p, item).demux == p.demux
  {
  }

  /** Where get_client returns NULL. */
  lemma NobodyThere(n: Node)
    requires n.inbox != []
    ensures var id := n.inbox[0].id; Unknown(n) <==>
        id < 0 || id >= MAX_CLIENTS ||
        (!n.pool.demux && id !in n.pool.table)
  {
  }

  lemma Known(n: Node)
    requires Healthy(n) && n.inbox != [] && 0 < n.inbox[0].id && n.inbox[0].id in n.pool.table
    ensures 0 < n.pool.table[n.inbox[0].id] < |n.pool.all|
    ensures var c := n.pool.all[n.pool.table[n.inbox[0].id]]; c.id == n.inbox[0].id && !c.burned
  {
    Entry(n.pool, n.inbox[0].id);
  }

  /** A pair can always be handled once its client has been found. */
  lemma Credits(n: Node)
    requires Healthy(n) && n.inbox != [] && n.inbox[0].Credit? && 0 < n.inbox[0].id && n.inbox[0].id in n.pool.table
    ensures 0 < n.pool.table[n.inbox[0].id] < |n.pool.all|
    ensures var c := n.pool.all[n.pool.table[n.inbox[0].id]]; c.id == n.inbox[0].id && !c.burned
    ensures CanStep(n, Takes)
    ensures var m := NodeState.Step(n, Takes);
      m == n.(pool := Handle(n.pool, n.inbox[0]), inbox := n.inbox[1..], taken := n.taken + 1) && SameStream(n, m)
  {
    Known(n);
    TakesIs(n);
    HandleDemux(n.pool, n.inbox[0]);
    hide Healthy, CanStep, NodeState.Step, Handle;
  }

  lemma NextNote(notes: seq<Note>, i: nat)
    requires i < |notes|
    ensures NoteItems(notes)[i..] != [] && NoteItems(notes)[i..][0] == Credit(notes[i].id, notes[i].karma)
    ensures NoteItems(notes)[i..][1..] == NoteItems(notes)[i + 1..]
  {
  }

  lemma StrayItem(n: Node)
    requires n.inbox != [] && n.inbox[0].id == 0
    ensures Fails(n)
  {
  }

  lemma Nobody(n: Node)
    requires n.inbox != [] && Unknown(n)
    ensures Fails(n)
  {
  }

  /** A payload is handled if there is room for it; otherwise the connection is given up. */
  lemma Payloads(n: Node)
    requires Healthy(n) && |n.inbox| == 1 && n.inbox[0].Payload? && 0 < n.inbox[0].id && n.inbox[0].id in n.pool.table
    ensures var h := n.pool.table[n.inbox[0].id];
      && 0 < h < |n.pool.all|
      && var c, data := n.pool.all[h], n.inbox[0].bytes;
      if CLIENT_KARMA - |c.out| < |data| then Fails(n)
      else
        CanStep(n, Takes) &&
        var m := NodeState.Step(n, Takes);
        m == n.(pool := Set(n.pool, h, c.(out := c.out + data)), inbox := [], taken := n.taken + 1) && SameStream(n, m)
  {
    Known(n);
    TakesIs(n);
    HandleDemux(n.pool, n.inbox[0]);
    assert n.inbox[1..] == [];
    hide Healthy, CanStep, NodeState.Step;
  }

  lemma Opening(n: Node)
    requires Complete(n.wire) && CanStep(n, Opens)
    ensures var m := NodeState.Step(n, Opens); var p := Decode(n.wire.rin);
      && (BadKarma(m.wire) ==> Fails(m))
      && (BadKarma(m.wire) <==> m.wire.streamKarma < 0 || m.wire.streamKarma > GLOBAL_KARMA)
      && m.wire.streamKarma == n.wire.streamKarma + Acked(p)
      && m.wire.rpos == 0 && m.wire.heard == n.wire.heard
      && (p.Ack? ==> m.inbox == NoteItems(p.notes))
      && (p.Data? ==> m.inbox == [Payload(p.id, p.payload)])
  {
    hide Decode, GoodPacket, AckNotes;
  }

  lemma Rested(n: Node, m: Node)
    requires SameStream(n, m)
    ensures m.wire.rpos == n.wire.rpos && m.wire.heard == n.wire.heard && m.wire.rin == n.wire.rin
  {
  }

  lemma GetCounts(w: Wire, bs: seq<byte>)
    requires CanGet(w, bs)
    ensures Get(w, bs).rstreamKarma == w.rstreamKarma + |bs| && Get(w, bs).heard == w.heard + bs
  {
  }

  lemma ItShakes(n: Node, pos: int)
    requires n.wire.conn.Dialing? && GoodPosition(n.wire.streamPos, pos)
    ensures CanHappen(n, Shakes(pos)) && After(n, Shakes(pos)) == n.(wire := Shake(n.wire, pos))
    ensures SameReading(n, After(n, Shakes(pos)))
  {
  }

  /** The packet being read is not complete yet. */
  predicate Tight(w: Wire) {
    && |w.rin| == MESSAGE && w.rpos <= MESSAGE
    && (w.rpos > HEADER ==> !BadSize(w) && w.rpos < HEADER + SizeField(w.rin))
  }

  lemma GetTight(w: Wire, bs: seq<byte>)
    requires Tight(w) && CanGet(w, bs)
    ensures var g := Get(w, bs);
      if w.rpos >= HEADER && |bs| == ReadLimit(w) then Complete(g) else Tight(g)
  {
    var g := Get(w, bs);
    if w.rpos >= HEADER {
      HeaderKept(w.rin, w.rpos, bs);
      hide GetInt;
    }
  }

  lemma HeaderKept(rin: seq<byte>, rpos: nat, bs: seq<byte>)
    requires HEADER <= rpos && rpos + |bs| <= |rin| && |rin| == MESSAGE
    ensures (rin[..rpos] + bs + rin[rpos + |bs|..])[4..8] == rin[4..8]
  {
  }

  /** There is always something to ask read() for. */
  lemma TightLimit(w: Wire)
    requires Tight(w) && !BadSize(w)
    ensures 1 <= ReadLimit(w) && ReadLimit(w) == (if w.rpos < HEADER then HEADER
        else HEADER + SizeField(w.rin)) - w.rpos
  {
  }

  lemma TightOn(v: Wire, w: Wire)
    requires v.rin == w.rin && v.rpos == w.rpos
    ensures Tight(v) <==> Tight(w)
    ensures Complete(v) <==> Complete(w)
  {
  }

  lemma TightEmpty(n: Node)
    requires Healthy(n) && n.wire.rpos == 0
    ensures Tight(n.wire)
  {
  }

  lemma TightSize(w: Wire)
    requires Tight(w)
    ensures |w.rin| == MESSAGE
  {
  }

  lemma SizeFails(n: Node)
    requires |n.wire.rin| == MESSAGE && BadSize(n.wire)
    ensures Fails(n)
  {
  }

  lemma MayGet(w: Wire, bs: seq<byte>)
    requires w.conn.Ready? && |w.rin| == MESSAGE && !BadSize(w) && 1 <= |bs| <= ReadLimit(w)
    ensures CanGet(w, bs)
  {
  }
}
