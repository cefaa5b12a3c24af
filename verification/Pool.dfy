/**
 The clients of one tcpmux endpoint: the id table, the write list, the karma list and the per-client
 credit counters. Each function is what one function of tcpmux.c, or one turn of one of its loops,
 does to them.
 */
module PoolState {
  import opened NetBytes
  import opened Packets

  /** What one packet asks of one client: a payload, or credit; credit -1 is the notice of a disconnect. */
  datatype Item = Payload(id: int, bytes: seq<byte>) | Credit(id: int, karma: int)

  function NoteItems(notes: seq<Note>): (r: seq<Item>)
    ensures |r| == |notes|
  {
    seq(|notes|, i requires 0 <= i < |notes| => Credit(notes[i].id, notes[i].karma))
  }

  function ItemsOf(p: Packet): seq<Item> {
    match p
    case Data(id, payload) => [Payload(id, payload)]
    case Ack(_, notes) => NoteItems(notes)
  }

  /**
   client_data. `up` is s != -1, `queued` is in_write_queue and `out` the contents of out_buf. The
   last four fields are history: all bytes read from and written to the client's socket, and whether
   this side has composed its notice of the disconnect and processed the peer's.
   */
  datatype Client = Client(
    id: int,
    up: bool,
    connecting: bool,
    rdead: bool,
    burned: bool,
    wkarma: int,
    rkarma: int,
    queued: bool,
    out: seq<byte>,
    read: seq<byte>,
    written: seq<byte>,
    said: bool,
    told: bool)

  /** An item that was composed and the client it was composed for. */
  datatype Sent = Sent(item: Item, owner: nat)

  /**
   Clients are numbered in the order of allocation, 0 being the control client; a number is never
   reused, an id may be. `sent` is history.
   */
  datatype Pool = Pool(
    demux: bool,
    all: seq<Client>,
    table: map<int, nat>,
    writeQ: seq<nat>,
    karmaQ: seq<nat>,
    sent: seq<Sent>)

  /** How the reads for one packet from a client's socket ended. */
  datatype End = Filled | Blocked | Broken

  /** How a new connection on the demux side starts. */
  datatype Outcome = Connected | InProgress | Refused

  function NewClient(id: int): Client {
    Client(id, false, false, false, false, CLIENT_KARMA, 0, false, [], [], [], false, false)
  }

  function FreshPool(demux: bool): Pool {
    Pool(demux, [NewClient(0)], map[0 := 0], [], [], [])
  }

  function Set(p: Pool, h: nat, c: Client): Pool
    requires h < |p.all|
  {
    p.(all := p.all[h := c])
  }

  /* ---- the operations ---- */

  function PushWriter(p: Pool, h: nat): Pool
    requires h < |p.all|
  {
    if p.all[h].queued then p
    else p.(all := p.all[h := p.all[h].(queued := true)], writeQ := p.writeQ + [h])
  }

  /** A client in this state is on the karma list. */
  predicate Due(c: Client) {
    c.rkarma == -1 || c.rkarma >= ACK_THRESHOLD
  }

  function SetRkarma(p: Pool, h: nat, rkarma: int): Pool
    requires 0 < |p.all| && h < |p.all|
  {
    var noqueue := 0 <= p.all[h].rkarma < ACK_THRESHOLD;
    var q := Set(p, h, p.all[h].(rkarma := rkarma));
    if noqueue && (rkarma == -1 || ACK_THRESHOLD <= rkarma) then
      var r := q.(karmaQ := q.karmaQ + [h]);
      if q.karmaQ == [] then PushWriter(r, 0) else r
    else
      q
  }

  function Disconnect(p: Pool, h: nat): Pool
    requires 0 < |p.all| && h < |p.all|
  {
    SetRkarma(Set(p, h, p.all[h].(up := false)), h, -1)
  }

  function Allocate(p: Pool, id: int): Pool {
    p.(all := p.all + [NewClient(id)], table := p.table[id := |p.all|])
  }

  /** The id allocate_client(mc, -1) picks. */
  predicate IsLowestFree(table: map<int, nat>, id: int) {
    0 <= id && id !in table && forall j | 0 <= j < id :: j in table
  }

  /** A connection accepted on the mux side. */
  function Accept(p: Pool, id: int): Pool
    requires 0 < |p.all|
  {
    var h := |p.all|;
    var q := Allocate(p, id);
    SetRkarma(Set(q, h, q.all[h].(up := true)), h, CLIENT_KARMA)
  }

  /** get_client for an id the demux side does not know yet. */
  function Introduce(p: Pool, id: int, outcome: Outcome): Pool
    requires 0 < |p.all|
  {
    var h := |p.all|;
    var q := Allocate(p, id);
    var r := Set(q, h, q.all[h].(up := true, connecting := !outcome.Connected?, wkarma := 0));
    if outcome.Refused? then Disconnect(r, h) else r
  }

  /** is_burned set and the table slot freed. */
  function Burn(p: Pool, h: nat): Pool
    requires h < |p.all|
  {
    Set(p, h, p.all[h].(burned := true)).(table := p.table - {p.all[h].id})
  }

  /** One turn of the loop in write_ack. */
  function TakeNote(p: Pool): Pool
    requires p.karmaQ != [] && p.karmaQ[0] < |p.all|
  {
    var h := p.karmaQ[0];
    var c := p.all[h];
    var q := Set(p, h, c.(rkarma := 0, said := c.said || c.rkarma == -1))
      .(karmaQ := p.karmaQ[1..], sent := p.sent + [Sent(Credit(c.id, c.rkarma), h)]);
    if c.rdead then Burn(q, h) else q
  }

  /** At most n turns of that loop. */
  function TakeNotes(p: Pool, n: nat): Pool
    decreases n
  {
    if n == 0 || p.karmaQ == [] || p.karmaQ[0] >= |p.all| then p else TakeNotes(TakeNote(p), n - 1)
  }

  /** The pairs those turns write. */
  function AckNotes(p: Pool, n: nat): seq<Note>
    decreases n
  {
    if n == 0 || p.karmaQ == [] || p.karmaQ[0] >= |p.all| then [] else
      var c := p.all[p.karmaQ[0]];
      [Note(c.id, c.rkarma)] + AckNotes(TakeNote(p), n - 1)
  }

  predicate CanAcknowledge(p: Pool) {
    p.writeQ != [] && p.writeQ[0] == 0 && 0 < |p.all|
  }

  /** The control client at the head of the write list: mainw composes an acknowledgment. */
  function Acknowledge(p: Pool): Pool
    requires CanAcknowledge(p)
    ensures |p.all| == |Acknowledge(p).all|
  {
    TakeNotesSize(p, MAX_NOTES);
    var q := TakeNotes(p, MAX_NOTES);
    Requeue(Pop(q), 0, q.karmaQ != [])
  }

  lemma {:induction false} TakeNotesSize(p: Pool, n: nat)
    ensures |TakeNotes(p, n).all| == |p.all| && TakeNotes(p, n).writeQ == p.writeQ
    decreases n
  {
    if n != 0 && p.karmaQ != [] && p.karmaQ[0] < |p.all| {
      TakeNotesSize(TakeNote(p), n - 1);
    }
  }

  /** mainw puts a client it has popped back on the list, or clears its in_write_queue. */
  function Requeue(p: Pool, h: nat, again: bool): Pool
    requires h < |p.all|
  {
    if again then p.(writeQ := p.writeQ + [h])
    else Set(p, h, p.all[h].(queued := false))
  }

  function Pop(p: Pool): Pool
    requires p.writeQ != []
  {
    p.(writeQ := p.writeQ[1..])
  }

  /** The largest payload mainw asks of a client. */
  function Room(c: Client): int {
    if VPACKETSIZE < c.wkarma then VPACKETSIZE else c.wkarma
  }

  predicate CanCollect(p: Pool, data: seq<byte>, end: End) {
    && p.writeQ != [] && 0 < p.writeQ[0] < |p.all|
    && var c := p.all[p.writeQ[0]];
    && c.up && !c.burned
    && (if end.Filled? then |data| == Room(c) else |data| < Room(c))
  }

  /** The client at the head of the write list: mainw collects a payload from its socket. */
  function Collect(p: Pool, data: seq<byte>, end: End): Pool
    requires CanCollect(p, data, end)
  {
    var h := p.writeQ[0];
    var q := Pop(p);
    var r := if end.Broken? && data == [] then Disconnect(q, h) else q;
    var c := r.all[h].(wkarma := r.all[h].wkarma - |data|, read := r.all[h].read + data);
    var s := Set(r, h, c).(sent := if data == [] then r.sent else r.sent + [Sent(Payload(c.id, data), h)]);
    Requeue(s, h, end.Filled? && c.wkarma > 0)
  }

  predicate CanSkip(p: Pool) {
    && p.writeQ != [] && 0 < p.writeQ[0] < |p.all|
    && var c := p.all[p.writeQ[0]];
    c.burned || !c.up
  }

  /** A dead client at the head of the write list. */
  function Skip(p: Pool): Pool
    requires CanSkip(p)
  {
    Requeue(Pop(p), p.writeQ[0], false)
  }

  predicate CanDeliver(p: Pool, h: nat, n: nat) {
    && h < |p.all|
    && var c := p.all[h];
    c.up && !c.burned && !c.connecting && 1 <= n <= |c.out|
  }

  /** clientw: n bytes of out_buf went to the client's socket. */
  function Deliver(p: Pool, h: nat, n: nat): Pool
    requires CanDeliver(p, h, n)
  {
    var c := p.all[h];
    SetRkarma(Set(p, h, c.(out := c.out[n..], written := c.written + c.out[..n])), h, c.rkarma + n)
  }

  /** mainr has no room for a payload: "No room for incoming packet (karma error)". */
  predicate NoRoom(c: Client, item: Item) {
    item.Payload? && CLIENT_KARMA - |c.out| < |item.bytes|
  }

  /** What mainr and read_ack do with an item once get_client has found its client. */
  function Handle(p: Pool, item: Item): Pool
    requires item.id in p.table && p.table[item.id] < |p.all| && 0 < |p.all|
  {
    var h := p.table[item.id];
    var c := p.all[h];
    match item
    case Payload(_, bytes) => Set(p, h, c.(out := c.out + bytes))
    case Credit(_, karma) =>
      if karma >= 0 then PushWriter(Set(p, h, c.(wkarma := c.wkarma + karma)), h)
      else if c.up then Disconnect(Set(p, h, c.(rdead := true, told := true)), h)
      else if c.rkarma == 0 then Burn(Set(p, h, c.(told := true)), h)
      else Set(p, h, c.(rdead := true, told := true))
  }

  /* ---- what an endpoint does on its own ---- */

  /**
   The stretches of tcpmux.c that act on clients without an item from the peer. Report is one turn of
   the loop in write_ack and Close its end; together they make up an acknowledgment.
   */
  datatype Act =
    | Push(h: nat)
    | Establish(h: nat)
    | Drop(h: nat)
    | Flush(h: nat, n: nat)
    | Gather(data: seq<byte>, end: End)
    | Pass
    | Report
    | Close

  predicate CanAct(p: Pool, a: Act) {
    && 0 < |p.all|
    && match a
       case Push(h) => h < |p.all|
       case Establish(h) => 0 < h < |p.all| && p.all[h].up
       case Drop(h) => 0 < h < |p.all| && p.all[h].up
       case Flush(h, n) => 0 < h && CanDeliver(p, h, n)
       case Gather(data, end) => CanCollect(p, data, end)
       case Pass => CanSkip(p)
       case Report => p.karmaQ != [] && p.karmaQ[0] < |p.all|
       case Close => CanAcknowledge(p)
  }

  function Do(p: Pool, a: Act): Pool
    requires CanAct(p, a)
  {
    match a
    case Push(h) => PushWriter(p, h)
    case Establish(h) => Set(p, h, p.all[h].(connecting := false))
    case Drop(h) => Disconnect(p, h)
    case Flush(h, n) => Deliver(p, h, n)
    case Gather(data, end) => Collect(p, data, end)
    case Pass => Skip(p)
    case Report => TakeNote(p)
    case Close => Requeue(Pop(p), 0, p.karmaQ != [])
  }

  /* ---- what every operation keeps ---- */

  ghost predicate Distinct(q: seq<nat>) {
    forall i, j | 0 <= i < j < |q| :: q[i] != q[j]
  }

  predicate Sane(c: Client) {
    && 0 <= c.id < MAX_CLIENTS
    && 0 <= c.wkarma
    && -1 <= c.rkarma
    && (c.up ==> 0 <= c.rkarma && !c.burned && !c.rdead)
    && (!c.up ==> c.rkarma <= 0)
    && (c.burned ==> c.rkarma == 0)
    && (c.rdead && !c.burned ==> c.rkarma == -1)
    // The control client aside, a client is burned once both notices are through, in either order.
    && (c.told <==> c.rdead || c.burned)
    && (c.id > 0 ==> (c.said <==> !c.up && c.rkarma == 0) && (c.burned <==> c.said && c.told))
  }

  /** The write list holds exactly the clients with in_write_queue set, each once. */
  ghost predicate WriteListOk(p: Pool) {
    && Distinct(p.writeQ)
    && (forall h: nat :: h in p.writeQ <==> h < |p.all| && p.all[h].queued)
  }

  /** The karma list holds exactly the clients that owe an acknowledgment or a notice, each once. */
  ghost predicate KarmaListOk(p: Pool) {
    && Distinct(p.karmaQ)
    && (forall h: nat :: h in p.karmaQ <==> h < |p.all| && Due(p.all[h]))
    && (p.karmaQ != [] ==> 0 < |p.all| && p.all[0].queued)
  }

  /** The table holds exactly the clients that are not burned. */
  ghost predicate TableOk(p: Pool) {
    && (forall id | id in p.table :: p.table[id] < |p.all| && p.all[p.table[id]].id == id && !p.all[p.table[id]].burned)
    && (forall h | 0 <= h < |p.all| && !p.all[h].burned :: p.all[h].id in p.table && p.table[p.all[h].id] == h)
  }

  ghost predicate ControlOk(p: Pool) {
    && 0 < |p.all|
    && p.all[0].id == 0 && !p.all[0].up && !p.all[0].burned && !p.all[0].rdead && p.all[0].rkarma == 0
  }

  ghost predicate ClientsOk(p: Pool) {
    forall h | 0 <= h < |p.all| :: Sane(p.all[h]) && (h > 0 ==> 0 < p.all[h].id)
  }

  ghost predicate Tidy(p: Pool) {
    ControlOk(p) && ClientsOk(p) && TableOk(p) && WriteListOk(p) && KarmaListOk(p)
  }

  lemma FreshIsTidy(demux: bool)
    ensures Tidy(FreshPool(demux))
  {
  }

  lemma PushWriterTidy(p: Pool, h: nat)
    requires Tidy(p) && h < |p.all|
    ensures Tidy(PushWriter(p, h))
  {
  }

  lemma Appended(q: seq<nat>, x: nat)
    requires Distinct(q) && x !in q
    ensures Distinct(q + [x]) && forall h: nat :: h in q + [x] <==> h in q || h == x
  {
  }

  lemma Popped(q: seq<nat>)
    requires Distinct(q) && q != []
    ensures Distinct(q[1..]) && forall h: nat :: h in q[1..] <==> h in q && h != q[0]
  {
    forall h: nat
      ensures h in q[1..] <==> h in q && h != q[0]
    {
      if h in q && h != q[0] {
        var i :| 0 <= i < |q| && q[i] == h;
        assert q[1..][i - 1] == h;
      }
    }
  }

  /** A change of one client that leaves its id, its place in the write list and its life alone. */
  lemma SetMostly(p: Pool, h: nat, c: Client)
    requires Tidy(p) && 0 < h < |p.all| && Sane(c)
    requires var b := p.all[h]; c.id == b.id && c.burned == b.burned && c.queued == b.queued
    ensures var q := Set(p, h, c); ControlOk(q) && ClientsOk(q) && TableOk(q) && WriteListOk(q)
  {
  }

  lemma SetTidy(p: Pool, h: nat, c: Client)
    requires Tidy(p) && 0 < h < |p.all| && Sane(c)
    requires var b := p.all[h]; c.id == b.id && c.burned == b.burned && c.queued == b.queued && Due(c) == Due(b)
    ensures Tidy(Set(p, h, c))
  {
    SetMostly(p, h, c);
  }

  /** A client that owes nothing comes to owe something; or one that owes stays so. */
  lemma SetRkarmaTidy(p: Pool, h: nat, c: Client, k: int)
    requires Tidy(p) && 0 < h < |p.all| && Sane(c.(rkarma := k))
    requires var b := p.all[h]; c.id == b.id && c.burned == b.burned && c.queued == b.queued && c.rkarma == b.rkarma
    requires Due(p.all[h]) ==> k == -1 || k >= ACK_THRESHOLD
    ensures Tidy(SetRkarma(Set(p, h, c), h, k))
  {
    var d := c.(rkarma := k);
    assert Set(Set(p, h, c), h, d) == Set(p, h, d);
    assert Sane(p.all[h]);
    if Due(c) == Due(d) {
      hide Tidy;
      SetTidy(p, h, d);
    } else {
      BecomesDue(p, h, d);
    }
  }

  lemma BecomesDue(p: Pool, h: nat, d: Client)
    requires Tidy(p) && 0 < h < |p.all| && Sane(d)
    requires var b := p.all[h]; d.id == b.id && d.burned == b.burned && d.queued == b.queued && !Due(b) && Due(d)
    ensures var q := Set(p, h, d).(karmaQ := p.karmaQ + [h]);
            if p.karmaQ == [] then Tidy(PushWriter(q, 0)) else Tidy(q)
  {
    var q := Set(p, h, d).(karmaQ := p.karmaQ + [h]);
    SetMostly(p, h, d);
    OnKarmaList(p, h, d);
    if p.karmaQ == [] {
      hide Tidy, ClientsOk, TableOk, Distinct, Due;
      PushForKarma(q);
    }
  }

  lemma OnKarmaList(p: Pool, h: nat, d: Client)
    requires KarmaListOk(p) && 0 < h < |p.all| && !Due(p.all[h]) && Due(d)
    ensures Distinct(p.karmaQ + [h])
    ensures forall k: nat :: k in p.karmaQ + [h] <==> k < |p.all| && Due(p.all[h := d][k])
  {
    Appended(p.karmaQ, h);
  }

  /** The first client on the karma list puts the control client on the write list. */
  lemma PushForKarma(q: Pool)
    requires ControlOk(q) && ClientsOk(q) && TableOk(q) && WriteListOk(q)
    requires Distinct(q.karmaQ) && forall h: nat :: h in q.karmaQ <==> h < |q.all| && Due(q.all[h])
    ensures Tidy(PushWriter(q, 0))
  {
    if !q.all[0].queued {
      Appended(q.writeQ, 0);
    }
  }

  lemma DisconnectTidy(p: Pool, h: nat)
    requires Tidy(p) && 0 < h < |p.all| && p.all[h].up
    ensures Tidy(Disconnect(p, h))
  {
    SetRkarmaTidy(p, h, p.all[h].(up := false), -1);
  }

  lemma AllocateTidy(p: Pool, id: int, c: Client)
    requires Tidy(p) && 0 < id < MAX_CLIENTS && id !in p.table
    requires Sane(c) && c.id == id && !c.burned && !c.queued && !Due(c)
    ensures Tidy(p.(all := p.all + [c], table := p.table[id := |p.all|]))
  {
  }

  lemma AcceptTidy(p: Pool, id: int)
    requires Tidy(p) && 0 < id < MAX_CLIENTS && id !in p.table
    ensures Tidy(Accept(p, id))
  {
    var h := |p.all|;
    var c := NewClient(id).(up := true);
    var q := p.(all := p.all + [c], table := p.table[id := h]);
    AllocateTidy(p, id, c);
    var a := Allocate(p, id);
    assert Set(a, h, a.all[h].(up := true)) == q == Set(q, h, c);
    SetRkarmaTidy(q, h, c, CLIENT_KARMA);
  }

  lemma IntroduceTidy(p: Pool, id: int, outcome: Outcome)
    requires Tidy(p) && 0 < id < MAX_CLIENTS && id !in p.table
    ensures Tidy(Introduce(p, id, outcome))
  {
    var h := |p.all|;
    var c := NewClient(id).(up := true, connecting := !outcome.Connected?, wkarma := 0);
    var q := p.(all := p.all + [c], table := p.table[id := h]);
    AllocateTidy(p, id, c);
    var a := Allocate(p, id);
    assert Set(a, h, c) == q;
    if outcome.Refused? {
      DisconnectTidy(q, h);
    }
  }

  lemma KarmaHead(p: Pool)
    requires Tidy(p) && p.karmaQ != []
    ensures 0 < p.karmaQ[0] < |p.all|
    ensures var c := p.all[p.karmaQ[0]]; Sane(c) && Due(c) && !c.burned && 0 < c.id
  {
    assert p.karmaQ[0] in p.karmaQ;
  }

  lemma SentIsFree(p: Pool, sent: seq<Sent>)
    requires Tidy(p)
    ensures Tidy(p.(sent := sent))
  {
  }

  lemma TakeNoteTidy(p: Pool)
    requires Tidy(p) && p.karmaQ != []
    ensures 0 < p.karmaQ[0] < |p.all| && Tidy(TakeNote(p))
  {
    hide Tidy;
    KarmaHead(p);
    var h := p.karmaQ[0];
    var c := p.all[h];
    var d := c.(rkarma := 0, said := c.said || c.rkarma == -1, rdead := false, told := false);
    var q := Set(p, h, d).(karmaQ := p.karmaQ[1..]);
    NoLongerDue(p, d);
    var t := p.sent + [Sent(Credit(c.id, c.rkarma), h)];
    SentIsFree(q, t);
    if c.rdead {
      var b := d.(rdead := true, told := true, burned := true);
      BurnSet(q.(sent := t), h, b);
      assert Set(q.(sent := t), h, b).(table := p.table - {c.id}) == TakeNote(p);
    }
  }

  lemma NoLongerDue(p: Pool, d: Client)
    requires Tidy(p) && p.karmaQ != [] && 0 < p.karmaQ[0] < |p.all| && Sane(d) && !Due(d)
    requires var b := p.all[p.karmaQ[0]]; d.id == b.id && d.burned == b.burned && d.queued == b.queued
    ensures Tidy(Set(p, p.karmaQ[0], d).(karmaQ := p.karmaQ[1..]))
  {
    SetMostly(p, p.karmaQ[0], d);
    OffKarmaList(p, d);
  }

  lemma OffKarmaList(p: Pool, d: Client)
    requires KarmaListOk(p) && p.karmaQ != [] && p.karmaQ[0] < |p.all| && !Due(d)
    ensures Distinct(p.karmaQ[1..])
    ensures forall k: nat :: k in p.karmaQ[1..] <==> k < |p.all| && Due(p.all[p.karmaQ[0] := d][k])
  {
    Popped(p.karmaQ);
  }

  lemma SkipTidy(p: Pool)
    requires Tidy(p) && CanSkip(p)
    ensures Tidy(Skip(p))
  {
    Popped(p.writeQ);
  }

  lemma SaneAt(p: Pool, h: nat)
    requires Tidy(p) && h < |p.all|
    ensures Sane(p.all[h])
  {
  }

  lemma Entry(p: Pool, id: int)
    requires Tidy(p) && 0 < id && id in p.table
    ensures 0 < p.table[id] < |p.all|
    ensures var c := p.all[p.table[id]]; c.id == id && !c.burned && Sane(c)
  {
  }

  lemma DeliverTidy(p: Pool, h: nat, n: nat)
    requires Tidy(p) && 0 < h && CanDeliver(p, h, n)
    ensures Tidy(Deliver(p, h, n))
  {
    hide Tidy;
    var c := p.all[h];
    SaneAt(p, h);
    SetRkarmaTidy(p, h, c.(out := c.out[n..], written := c.written + c.out[..n]), c.rkarma + n);
  }

  lemma HandleTidy(p: Pool, item: Item)
    requires Tidy(p) && 0 < item.id && item.id in p.table
    ensures p.table[item.id] < |p.all| && 0 < |p.all| && Tidy(Handle(p, item))
  {
    hide Tidy;
    Entry(p, item.id);
    var h := p.table[item.id];
    var c := p.all[h];
    match item
    case Payload(_, bytes) =>
      SetTidy(p, h, c.(out := c.out + bytes));
    case Credit(_, karma) =>
      if karma >= 0 {
        SetTidy(p, h, c.(wkarma := c.wkarma + karma));
        PushWriterTidy(Set(p, h, c.(wkarma := c.wkarma + karma)), h);
      } else if c.up {
        var d := c.(rdead := true, told := true);
        SetRkarmaTidy(p, h, d.(up := false), -1);
        assert Set(Set(p, h, d), h, d.(up := false)) == Set(p, h, d.(up := false));
      } else if c.rkarma == 0 {
        BurnSet(p, h, c.(told := true, burned := true));
        assert Set(Set(p, h, c.(told := true)), h, c.(told := true, burned := true)) ==
            Set(p, h, c.(told := true, burned := true));
      } else {
        SetTidy(p, h, c.(rdead := true, told := true));
      }
  }

  lemma BurnSet(p: Pool, h: nat, c: Client)
    requires Tidy(p) && 0 < h < |p.all| && !p.all[h].burned && !Due(p.all[h])
    requires Sane(c) && c.burned && c.id == p.all[h].id && c.queued == p.all[h].queued
    ensures Tidy(Set(p, h, c).(table := p.table - {c.id}))
  {
  }

  lemma {:induction false} TakeNotesTidy(p: Pool, n: nat)
    requires Tidy(p)
    ensures Tidy(TakeNotes(p, n))
    decreases n
  {
    if n != 0 && p.karmaQ != [] {
      hide Tidy, TakeNote;
      TakeNoteTidy(p);
      TakeNotesTidy(TakeNote(p), n - 1);
    }
  }

  /** What the first k clients on the karma list owe. */
  function Owed(p: Pool, k: nat): seq<Note>
    requires k <= |p.karmaQ|
  {
    seq(k, i requires 0 <= i < k =>
      var h := p.karmaQ[i];
      if h < |p.all| then Note(p.all[h].id, p.all[h].rkarma) else Note(-1, 0))
  }

  function Fit(p: Pool, n: nat): (k: nat)
    ensures k <= |p.karmaQ|
  {
    if |p.karmaQ| < n then |p.karmaQ| else n
  }

  /**
   An acknowledgment carries the first clients on the karma list, as many as fit, each with what it
   owes on entry; the rest stay on the list in order.
   */
  lemma {:induction false} AckNotesAre(p: Pool, n: nat)
    requires Tidy(p)
    ensures AckNotes(p, n) == Owed(p, Fit(p, n))
    ensures TakeNotes(p, n).karmaQ == p.karmaQ[Fit(p, n)..]
    decreases n
  {
    hide Tidy, TakeNote;
    if n != 0 && p.karmaQ != [] {
      KarmaHead(p);
      TakeNoteTidy(p);
      TakeNoteQueue(p);
      AckNotesAre(TakeNote(p), n - 1);
      OwedNext(p, Fit(p, n));
    } else {
      assert p.karmaQ[0..] == p.karmaQ;
    }
  }

  lemma TakeNoteQueue(p: Pool)
    requires p.karmaQ != [] && p.karmaQ[0] < |p.all|
    ensures TakeNote(p).karmaQ == p.karmaQ[1..]
  {
  }

  lemma OwedNext(p: Pool, k: nat)
    requires Tidy(p) && 0 < k <= |p.karmaQ|
    ensures p.karmaQ[0] < |p.all| && k - 1 <= |TakeNote(p).karmaQ|
    ensures Owed(p, k) == [Note(p.all[p.karmaQ[0]].id, p.all[p.karmaQ[0]].rkarma)] + Owed(TakeNote(p), k - 1)
    ensures p.karmaQ[1..][k - 1..] == p.karmaQ[k..]
  {
    assert p.karmaQ[0] in p.karmaQ;
    forall i | 0 < i < k
      ensures Owed(p, k)[i] == Owed(TakeNote(p), k - 1)[i - 1]
    {
      assert p.karmaQ[i] in p.karmaQ;
    }
  }

  /** Taking the head off the write list, or moving it to the end. */
  lemma RotateTidy(p: Pool, again: bool)
    requires Tidy(p) && p.writeQ != []
    requires p.writeQ[0] == 0 && !again ==> p.karmaQ == []
    ensures p.writeQ[0] < |p.all| && Tidy(Requeue(Pop(p), p.writeQ[0], again))
  {
    assert p.writeQ[0] in p.writeQ;
    Popped(p.writeQ);
    if again {
      Appended(p.writeQ[1..], p.writeQ[0]);
    }
  }

  lemma AcknowledgeTidy(p: Pool)
    requires Tidy(p) && CanAcknowledge(p)
    ensures Tidy(Acknowledge(p))
  {
    hide Tidy;
    TakeNotesTidy(p, MAX_NOTES);
    TakeNotesSize(p, MAX_NOTES);
    RotateTidy(TakeNotes(p, MAX_NOTES), TakeNotes(p, MAX_NOTES).karmaQ != []);
  }

  /** mainw pops before it disconnects; the other order comes to the same. */
  lemma PopCommutes(p: Pool, h: nat)
    requires p.writeQ != [] && 0 < |p.all| && h < |p.all|
    ensures Disconnect(Pop(p), h) == Pop(Disconnect(p, h))
    ensures Disconnect(p, h).writeQ != [] && Disconnect(p, h).writeQ[0] == p.writeQ[0]
  {
    assert (p.writeQ + [0])[1..] == p.writeQ[1..] + [0];
  }

  lemma CollectTidy(p: Pool, data: seq<byte>, end: End)
    requires Tidy(p) && CanCollect(p, data, end)
    ensures Tidy(Collect(p, data, end))
  {
    hide Tidy, Disconnect;
    var h := p.writeQ[0];
    SaneAt(p, h);
    var r := if end.Broken? && data == [] then Disconnect(p, h) else p;
    if end.Broken? && data == [] {
      DisconnectTidy(p, h);
      PopCommutes(p, h);
      DisconnectSize(p, h);
    }
    SaneAt(r, h);
    var c := r.all[h].(wkarma := r.all[h].wkarma - |data|, read := r.all[h].read + data);
    SetTidy(r, h, c);
    var s := Set(r, h, c);
    var sent := if data == [] then r.sent else r.sent + [Sent(Payload(c.id, data), h)];
    SentIsFree(s, sent);
    RotateTidy(s.(sent := sent), end.Filled? && c.wkarma > 0);
  }

  /** Collect, with its intermediate results named. */
  lemma CollectIs(p: Pool, data: seq<byte>, end: End, r: Pool, c: Client)
    requires CanCollect(p, data, end) && p.writeQ[0] < |r.all|
    requires r == if end.Broken? && data == [] then Disconnect(Pop(p), p.writeQ[0]) else Pop(p)
    requires c == r.all[p.writeQ[0]].(wkarma := r.all[p.writeQ[0]].wkarma - |data|, read :=
        r.all[p.writeQ[0]].read + data)
    ensures var sent := if data == [] then r.sent else r.sent + [Sent(Payload(c.id, data), p.writeQ[0])];
      Collect(p, data, end) == Requeue(Set(r, p.writeQ[0], c).(sent := sent), p.writeQ[0], end.Filled? && c.wkarma > 0)
  {
    hide Disconnect, Requeue;
  }

  lemma DisconnectSize(p: Pool, h: nat)
    requires 0 < |p.all| && h < |p.all|
    ensures |Disconnect(p, h).all| == |p.all| && Disconnect(p, h).sent == p.sent && Disconnect(p, h).table == p.table
    ensures Disconnect(p, h).all[h] == p.all[h].(up := false, rkarma := -1, queued := Disconnect(p, h).all[h].queued)
  {
  }

  lemma ActTidy(p: Pool, a: Act)
    requires Tidy(p) && CanAct(p, a)
    ensures Tidy(Do(p, a))
  {
    hide Tidy;
    match a
    case Push(h) => PushWriterTidy(p, h);
    case Establish(h) => SaneAt(p, h); SetTidy(p, h, p.all[h].(connecting := false));
    case Drop(h) => DisconnectTidy(p, h);
    case Flush(h, n) => DeliverTidy(p, h, n);
    case Gather(data, end) => CollectTidy(p, data, end);
    case Pass => SkipTidy(p);
    case Report => TakeNoteTidy(p);
    case Close => RotateTidy(p, p.karmaQ != []);
  }
}
