/**
 One tcpmux endpoint as a state machine: the stream side and the clients side together. An event is
 the stretch of code between two calls that may interleave with others, with what the environment
 supplies to it.
 */
module NodeState {
  import opened NetBytes
  import opened Packets
  import opened WireState
  import opened PoolState

  /**
   `inbox` are the items of the packet being processed that read_ack has not got to yet; `taken` is
   history and counts the items handled.
   */
  datatype Node = Node(wire: Wire, pool: Pool, inbox: seq<Item>, taken: nat)

  datatype Event =
    // mainw: compose for the client at the head of the write list
    | Acks
    | Gathers(data: seq<byte>, end: End)
    | Passes
    // mainw: write to the main connection
    | Puts(n: nat)
    | Repays(n: nat)
    // mainr: read from the main connection, then process a whole packet item by item
    | Gets(bs: seq<byte>)
    | Opens
    | Meets(outcome: Outcome)
    | Takes
    | Ignores
    // muxloop: a connection accepted; clients become readable, connected, writable or broken
    | Joins(id: int)
    | Acts(act: Act)

  /** The acknowledgment write_ack would compose. */
  function NextAck(n: Node): Packet {
    Packet.Ack(n.wire.rstreamKarma, AckNotes(n.pool, MAX_NOTES))
  }

  predicate CanStep(n: Node, e: Event) {
    match e
    case Acks => CanAcknowledge(n.pool) && CanCompose(n.wire, NextAck(n))
    case Gathers(data, end) =>
      && CanCollect(n.pool, data, end)
      && n.wire.conn.Ready? && n.wire.pending == []
      && (data != [] ==> CanCompose(n.wire, Data(n.pool.all[n.pool.writeQ[0]].id, data)))
    case Passes => CanSkip(n.pool) && n.wire.conn.Ready? && n.wire.pending == []
    case Puts(k) => |n.wire.stream| == GLOBAL_KARMA && n.wire.streamPos < GLOBAL_KARMA &&
        |n.wire.pending| <= MESSAGE && CanPut(n.wire, k)
    case Repays(k) => |n.wire.stream| == GLOBAL_KARMA && CanRepay(n.wire, k)
    case Gets(bs) => n.inbox == [] && 0 < |n.pool.all| && CanGet(n.wire, bs)
    case Opens => n.inbox == [] && Complete(n.wire)
    case Meets(_) =>
      && n.pool.demux && 0 < |n.pool.all| && n.inbox != []
      && 0 < n.inbox[0].id < MAX_CLIENTS && n.inbox[0].id !in n.pool.table
    case Takes =>
      && n.inbox != [] && 0 < n.inbox[0].id && n.inbox[0].id in n.pool.table && 0 < |n.pool.all|
      && n.pool.table[n.inbox[0].id] < |n.pool.all|
      && !NoRoom(n.pool.all[n.pool.table[n.inbox[0].id]], n.inbox[0])
    case Ignores => n.inbox != [] && n.inbox[0].Credit? && Unknown(n)
    case Joins(id) => !n.pool.demux && 0 < |n.pool.all| && 0 < id < MAX_CLIENTS && IsLowestFree(n.pool.table, id)
    case Acts(a) => (a.Push? || a.Establish? || a.Drop? || a.Flush?) && CanAct(n.pool, a)
  }

  /** get_client returns NULL for the next item. */
  predicate Unknown(n: Node)
    requires n.inbox != []
  {
    var id := n.inbox[0].id;
    !(0 <= id < MAX_CLIENTS) || (!n.pool.demux && id !in n.pool.table)
  }

  /** What an event does to the stream side. */
  function NextWire(n: Node, e: Event): Wire
    requires CanStep(n, e)
  {
    match e
    case Acks => Compose(n.wire, NextAck(n))
    case Gathers(data, _) =>
      if data == [] then n.wire else Compose(n.wire, Data(n.pool.all[n.pool.writeQ[0]].id, data))
    case Puts(k) => Put(n.wire, k)
    case Repays(k) => Repay(n.wire, k)
    case Gets(bs) => Get(n.wire, bs)
    case Opens => Open(n.wire)
    case _ => n.wire
  }

  /** What an event does to the clients. */
  function NextPool(n: Node, e: Event): Pool
    requires CanStep(n, e)
  {
    match e
    case Acks => Acknowledge(n.pool)
    case Gathers(data, end) => Collect(n.pool, data, end)
    case Passes => Skip(n.pool)
    case Gets(bs) => if n.wire.rstreamKarma + |bs| >= ACK_THRESHOLD then PushWriter(n.pool, 0) else n.pool
    case Meets(outcome) => Introduce(n.pool, n.inbox[0].id, outcome)
    case Takes => Handle(n.pool, n.inbox[0])
    case Joins(id) => Accept(n.pool, id)
    case Acts(a) => Do(n.pool, a)
    case _ => n.pool
  }

  function Step(n: Node, e: Event): Node
    requires CanStep(n, e)
  {
    n.(wire := NextWire(n, e), pool := NextPool(n, e),
       inbox := if e.Opens? then ItemsOf(Decode(n.wire.rin)) else if e.Takes? || e.Ignores? then n.inbox[1..]
           else n.inbox,
       taken := if e.Takes? || e.Ignores? then n.taken + 1 else n.taken)
  }

  /** The bytes an event hands to the main connection. */
  function Output(n: Node, e: Event): seq<byte>
    requires CanStep(n, e)
  {
    match e
    case Puts(k) => n.wire.pending[..k]
    case Repays(k) => Repayment(n.wire, k)
    case _ => []
  }

  function FreshNode(demux: bool, stream: seq<byte>, rin: seq<byte>): Node {
    Node(Fresh(stream, rin), FreshPool(demux), [], 0)
  }

  /** Nobody waits and nothing is owed, so mainw does nothing, though a packet is not all written. */
  predicate HalfWritten(n: Node) {
    n.wire.conn.Ready? && n.pool.writeQ == [] && n.wire.debt == 0 && n.wire.pending != []
  }

  /* ---- the branches that give up ---- */

  /** The assertions in write_ack, and the size that must fit the message. */
  predicate AckFails(n: Node) {
    CanAcknowledge(n.pool) && n.wire.pending == [] && !GoodPacket(NextAck(n))
  }

  /**
   The branches of mainr and read_ack that end the connection or drop an item, and the assertions of
   write_ack: a bad size, bad global karma, an unknown client, no room for a payload.
   */
  predicate Fails(n: Node) {
    || AckFails(n)
    || (|n.wire.rin| == MESSAGE && BadSize(n.wire))
    || BadKarma(n.wire)
    || (n.inbox != [] && Unknown(n))
    || (n.inbox != [] && n.inbox[0].id == 0)
    || (n.inbox != [] && n.inbox[0].id in n.pool.table && n.pool.table[n.inbox[0].id] < |n.pool.all| &&
        NoRoom(n.pool.all[n.pool.table[n.inbox[0].id]], n.inbox[0]))
  }

  /* ---- what each event keeps on its own side ---- */

  /** Bytes to acknowledge put the control client on the write list. */
  predicate Prompt(n: Node) {
    n.wire.rstreamKarma >= ACK_THRESHOLD ==> 0 < |n.pool.all| && n.pool.all[0].queued
  }

  ghost predicate Healthy(n: Node) {
    Sound(n.wire) && Tidy(n.pool) && Prompt(n)
  }

  lemma FreshHealthy(demux: bool, stream: seq<byte>, rin: seq<byte>)
    requires Sound(Fresh(stream, rin)) && Tidy(FreshPool(demux))
    ensures Healthy(FreshNode(demux, stream, rin))
    ensures FreshNode(demux, stream, rin).wire == Fresh(stream, rin) &&
        FreshNode(demux, stream, rin).pool == FreshPool(demux)
  {
    hide Sound, Tidy;
  }

  lemma SetRkarmaControl(p: Pool, h: nat, k: int)
    requires 0 < h < |p.all|
    ensures var q := SetRkarma(p, h, k); |q.all| == |p.all| && (p.all[0].queued ==> q.all[0].queued)
  {
  }

  /** No event but an acknowledgment takes the control client off the write list. */
  lemma ActControl(p: Pool, a: Act)
    requires Tidy(p) && CanAct(p, a) && !a.Close?
    ensures 0 < |Do(p, a).all| && (p.all[0].queued ==> Do(p, a).all[0].queued)
  {
    hide Tidy, SetRkarma;
    match a
    case Drop(h) => SetRkarmaControl(Set(p, h, p.all[h].(up := false)), h, -1);
    case Flush(h, n) =>
      var c := p.all[h];
      SetRkarmaControl(Set(p, h, c.(out := c.out[n..], written := c.written + c.out[..n])), h, c.rkarma + n);
    case Gather(data, end) =>
      var h := p.writeQ[0];
      SetRkarmaControl(Set(Pop(p), h, p.all[h].(up := false)), h, -1);
    case _ =>
  }

  lemma HandleControl(p: Pool, item: Item)
    requires Tidy(p) && 0 < item.id && item.id in p.table
    ensures 0 < p.table[item.id] < |p.all|
    ensures p.all[0].queued ==> Handle(p, item).all[0].queued
    ensures |Handle(p, item).all| == |p.all|
  {
    Entry(p, item.id);
    hide Tidy, SetRkarma;
    var h := p.table[item.id];
    var c := p.all[h];
    if item.Credit? && item.karma < 0 && c.up {
      var d := c.(rdead := true, told := true);
      SetRkarmaControl(Set(Set(p, h, d), h, d.(up := false)), h, -1);
    }
  }

  lemma NewControl(p: Pool, id: int, outcome: Outcome)
    requires 0 < |p.all|
    ensures 0 < |Introduce(p, id, outcome).all| && (p.all[0].queued ==> Introduce(p, id, outcome).all[0].queued)
    ensures 0 < |Accept(p, id).all| && (p.all[0].queued ==> Accept(p, id).all[0].queued)
  {
    hide SetRkarma;
    var h := |p.all|;
    var q := Allocate(p, id);
    SetRkarmaControl(Set(q, h, q.all[h].(up := true)), h, CLIENT_KARMA);
    var r := Set(q, h, q.all[h].(up := true, connecting := !outcome.Connected?, wkarma := 0));
    SetRkarmaControl(Set(r, h, r.all[h].(up := false)), h, -1);
  }

  /** Every event keeps the queues, the rings and the counters of its side, whatever the peer sends. */
  lemma StepHealthy(n: Node, e: Event)
    requires Healthy(n) && CanStep(n, e)
    requires e.Opens? ==> n.wire.streamKarma + Acked(Decode(n.wire.rin)) >= 0
    ensures Healthy(Step(n, e))
  {
    hide Sound, Tidy, Decode, Encode, Collect, Acknowledge, Handle, Introduce, Accept, Do, Skip;
    match e
    case Acks =>
      ComposeSound(n.wire, NextAck(n));
      AcknowledgeTidy(n.pool);
    case Gathers(data, end) =>
      if data != [] {
        ComposeSound(n.wire, Data(n.pool.all[n.pool.writeQ[0]].id, data));
      }
      GatherHealthy(n, data, end);
    case Passes =>
      SkipTidy(n.pool);
      PassControl(n.pool);
    case Puts(k) => PutSound(n.wire, k);
    case Repays(k) => RepaySound(n.wire, k);
    case Gets(bs) =>
      GetSound(n.wire, bs);
      PushWriterTidy(n.pool, 0);
    case Opens => OpenSound(n.wire);
    case Meets(outcome) =>
      IntroduceTidy(n.pool, n.inbox[0].id, outcome);
      NewControl(n.pool, n.inbox[0].id, outcome);
    case Takes =>
      HandleTidy(n.pool, n.inbox[0]);
      HandleControl(n.pool, n.inbox[0]);
    case Ignores =>
    case Joins(id) =>
      AcceptTidy(n.pool, id);
      NewControl(n.pool, id, Connected);
    case Acts(a) =>
      ActTidy(n.pool, a);
      ActControl(n.pool, a);
  }

  lemma Credited(n: Node)
    requires Healthy(n)
    ensures 0 <= n.wire.streamKarma
  {
  }

  lemma GatherHealthy(n: Node, data: seq<byte>, end: End)
    requires Healthy(n) && CanCollect(n.pool, data, end)
    ensures Tidy(Collect(n.pool, data, end)) && 0 < |n.pool.all|
    ensures 0 < |Collect(n.pool, data, end).all| && (n.pool.all[0].queued ==> Collect(n.pool, data, end).all[0].queued)
  {
    hide Sound, Tidy, Collect;
    CollectTidy(n.pool, data, end);
    ActControl(n.pool, Gather(data, end));
  }

  lemma PassControl(p: Pool)
    requires Tidy(p) && CanSkip(p)
    ensures 0 < |Skip(p).all| && (p.all[0].queued ==> Skip(p).all[0].queued)
  {
  }
}
