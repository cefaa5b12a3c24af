/**
 client_data and the parts of mux_context that hold clients: the id table and the two intrusive
 lists, threaded through the clients by `next` and `karmaNext`.
 */
module ClientLists {
  import opened NetBytes
  import opened Ring
  import opened Packets
  import opened PoolState

  class ClientData {
    const outBuf: array<byte>
    ghost const num: nat
    var id: int
    var up: bool
    var isConnecting: bool
    var isBurned: bool
    var isRdead: bool
    var wkarma: int
    var rkarma: int
    var next: ClientData?
    var karmaNext: ClientData?
    var inWriteQueue: bool
    var outPos: nat
    var outSz: nat

    /** calloc, and what allocate_client sets. */
    constructor (id: int, ghost num: nat)
      ensures fresh(outBuf) && this.num == num && next == null && karmaNext == null
      ensures Shows(NewClient(id))
    {
      outBuf := new byte[CLIENT_KARMA](_ => 0);
      this.num := num;
      this.id := id;
      up := false;
      isConnecting := false;
      isBurned := false;
      isRdead := false;
      wkarma := CLIENT_KARMA;
      rkarma := 0;
      next := null;
      karmaNext := null;
      inWriteQueue := false;
      outPos := 0;
      outSz := 0;
    }

    /** The fields are those of c; out_buf holds c's bytes from out_pos on. */
    ghost predicate Shows(c: Client)
      reads `id, `up, `isConnecting, `isBurned, `isRdead, `wkarma, `rkarma, `inWriteQueue, `outPos, `outSz, outBuf
    {
      Plain(c) && Holds(c.out)
    }

    ghost predicate Holds(out: seq<byte>)
      reads `outPos, `outSz, outBuf
    {
      && outBuf.Length == CLIENT_KARMA && outPos < CLIENT_KARMA && outSz <= CLIENT_KARMA
      && Held(outBuf[..], outPos, outSz) == out
    }

    /** Nothing but the links may have changed. */
    twostate predicate Same()
      reads this
    {
      && id == old(id) && up == old(up) && isConnecting == old(isConnecting) && isBurned == old(isBurned)
      && isRdead == old(isRdead) && wkarma == old(wkarma) && rkarma == old(rkarma)
      && inWriteQueue == old(inWriteQueue) && outPos == old(outPos) && outSz == old(outSz)
    }

    twostate predicate Still()
      reads this, outBuf
    {
      Same() && outBuf[..] == old(outBuf[..])
    }

    method AssignQueued(v: bool, ghost c: Client)
      requires Shows(c)
      modifies `inWriteQueue
      ensures Shows(c.(queued := v))
    {
      hide Held;
      inWriteQueue := v;
    }

    method AssignUp(v: bool, ghost c: Client)
      requires Shows(c)
      modifies `up
      ensures Shows(c.(up := v))
    {
      hide Held;
      up := v;
    }

    method AssignConnecting(v: bool, ghost c: Client)
      requires Shows(c)
      modifies `isConnecting
      ensures Shows(c.(connecting := v)) && isConnecting == v
    {
      hide Held;
      isConnecting := v;
    }

    method AssignBurned(v: bool, ghost c: Client)
      requires Shows(c)
      modifies `isBurned
      ensures Shows(c.(burned := v))
    {
      hide Held;
      isBurned := v;
    }

    method AssignRdead(v: bool, ghost c: Client)
      requires Shows(c)
      modifies `isRdead
      ensures Shows(c.(rdead := v, told := v))
    {
      hide Held;
      isRdead := v;
    }

    method AssignWkarma(v: int, ghost c: Client)
      requires Shows(c)
      modifies `wkarma
      ensures Shows(c.(wkarma := v))
    {
      hide Held;
      wkarma := v;
    }

    method AssignRkarma(v: int, ghost c: Client)
      requires Shows(c)
      modifies `rkarma
      ensures Shows(c.(rkarma := v))
    {
      hide Held;
      rkarma := v;
    }

    method Fill(data: seq<byte>, ghost c: Client)
      requires Shows(c) && outSz + |data| <= CLIENT_KARMA
      modifies `outSz, outBuf
      ensures Shows(c.(out := c.out + data))
    {
      if data != [] {
        LaidAppends(outBuf[..], outPos, outSz, data);
      } else {
        assert c.out + data == c.out;
      }
      hide Held, Laid;
      outSz := WriteCbuf(outBuf, outPos, outSz, data, false);
    }

    method Drain(n: nat, ghost c: Client)
      requires Shows(c) && 1 <= n <= |c.out|
      modifies `outPos, `outSz
      ensures Shows(c.(out := c.out[n..]))
    {
      hide Held;
      var at := outPos + n;
      if at >= CLIENT_KARMA {
        at := at - CLIENT_KARMA;
      }
      Drained(outBuf[..], outPos, outSz, n, at);
      outPos, outSz := at, outSz - n;
    }

    twostate lemma Unmoved(c: Client)
      requires old(Shows(c)) && Still()
      ensures Shows(c)
    {
    }

    ghost predicate Plain(c: Client)
      reads `id, `up, `isConnecting, `isBurned, `isRdead, `wkarma, `rkarma, `inWriteQueue
    {
      && id == c.id && up == c.up && isConnecting == c.connecting && isBurned == c.burned && isRdead == c.rdead
      && wkarma == c.wkarma && rkarma == c.rkarma && inWriteQueue == c.queued
    }
  }

  /** A change of one client. */
  datatype Edit = Edit(pool: Pool, num: nat, client: Client)

  /** A client to be allocated. */
  datatype Newcomer = Newcomer(pool: Pool, id: int)

  /** New links for one of the lists. */
  datatype Relink = Relink(pool: Pool, queue: seq<nat>)

  class ClientPool {
    const demux: bool
    var table: map<int, ClientData>
    var writeHead: ClientData?
    var writeTail: ClientData?
    var karmaHead: ClientData?
    var karmaTail: ClientData?
    /** All clients ever allocated, by number; `crew` and `bufs` are these objects and their buffers as sets. */
    ghost var clients: seq<ClientData>
    ghost var crew: set<ClientData>
    ghost var bufs: set<array<byte>>

    /** make_context: the control client is allocated first. */
    constructor (demux: bool)
      ensures Is(FreshPool(demux)) && fresh(crew) && fresh(bufs)
    {
      this.demux := demux;
      table := map[];
      writeHead, writeTail, karmaHead, karmaTail := null, null, null, null;
      clients, crew, bufs := [], {}, {};
      new;
      hide *;
      ghost var none := Pool(demux, [], map[], [], [], []);
      Nobody(none);
      Newborn(demux);
      var control := AllocateClient(0, none);
    }

    lemma Nobody(p: Pool)
      requires table == map[] && clients == [] && crew == {} && bufs == {} && writeHead == null && karmaHead == null
      requires p == Pool(demux, [], map[], [], [], [])
      ensures Is(p)
    {
    }

    ghost predicate Members()
      reads `clients, `crew, `bufs
    {
      && (forall h | 0 <= h < |clients| :: clients[h].num == h && clients[h] in crew && clients[h].outBuf in bufs)
      && (forall o | o in crew :: o.num < |clients| && clients[o.num] == o)
      && (forall h, k | 0 <= h < k < |clients| :: clients[h].outBuf != clients[k].outBuf)
    }

    ghost predicate TableShows(t: map<int, nat>)
      reads `table, `clients
    {
      && table.Keys == t.Keys
      && forall id | id in table :: t[id] < |clients| && table[id] == clients[t[id]]
    }

    /** The write list is q, in order. */
    ghost predicate WriteLinks(q: seq<nat>)
      requires Members()
      reads `writeHead, `writeTail, `clients, `crew, `bufs, crew
    {
      && (forall i | 0 <= i < |q| :: q[i] < |clients|)
      && (q == [] <==> writeHead == null)
      && (q != [] ==> writeHead == clients[q[0]] && writeTail == clients[q[|q| - 1]])
      && (forall i, j | 0 <= i < |q| && 0 <= j < |q| && j == i + 1 :: clients[q[i]].next == clients[q[j]])
      && (q != [] ==> clients[q[|q| - 1]].next == null)
      && (forall h | 0 <= h < |clients| && h !in q :: clients[h].next == null)
    }

    /** The karma list is q, in order. */
    ghost predicate KarmaLinks(q: seq<nat>)
      requires Members()
      reads `karmaHead, `karmaTail, `clients, `crew, `bufs, crew
    {
      && (forall i | 0 <= i < |q| :: q[i] < |clients|)
      && (q == [] <==> karmaHead == null)
      && (q != [] ==> karmaHead == clients[q[0]] && karmaTail == clients[q[|q| - 1]])
      && (forall i, j | 0 <= i < |q| && 0 <= j < |q| && j == i + 1 :: clients[q[i]].karmaNext == clients[q[j]])
      && (q != [] ==> clients[q[|q| - 1]].karmaNext == null)
      && (forall h | 0 <= h < |clients| && h !in q :: clients[h].karmaNext == null)
    }

    ghost predicate AllShow(all: seq<Client>)
      requires Members()
      reads `clients, `crew, `bufs, crew, bufs
    {
      |clients| == |all| && forall h | 0 <= h < |clients| :: clients[h].Shows(all[h])
    }

    /** The fields, the objects and their links amount to p. */
    ghost predicate Is(p: Pool)
      reads `table, `writeHead, `writeTail, `karmaHead, `karmaTail, `clients, `crew, `bufs, crew, bufs
    {
      && Members() && AllShow(p.all) && TableShows(p.table)
      && WriteLinks(p.writeQ) && KarmaLinks(p.karmaQ)
      && p.demux == demux
    }

    lemma Parts(p: Pool)
      requires Is(p)
      ensures Members() && AllShow(p.all) && TableShows(p.table)
      ensures WriteLinks(p.writeQ) && KarmaLinks(p.karmaQ) && p.demux == demux && |p.all| == |clients|
    {
    }

    lemma Whole(p: Pool)
      requires Members() && AllShow(p.all) && TableShows(p.table)
      requires WriteLinks(p.writeQ) && KarmaLinks(p.karmaQ) && p.demux == demux
      ensures Is(p)
    {
    }

    /** An empty list has no head. */
    lemma Heads(p: Pool)
      requires Is(p)
      ensures writeHead == null <==> p.writeQ == []
      ensures karmaHead == null <==> p.karmaQ == []
      ensures p.writeQ != [] ==> writeHead in crew && writeHead.num == p.writeQ[0] < |p.all|
      ensures p.karmaQ != [] ==> karmaHead in crew && karmaHead.num == p.karmaQ[0] < |p.all|
    {
    }

    lemma Flags(cd: ClientData, p: Pool)
      requires Is(p) && cd in crew
      ensures cd.num < |p.all| && cd.Plain(p.all[cd.num])
      ensures var c := p.all[cd.num]; cd.inWriteQueue == c.queued && cd.rkarma == c.rkarma && cd.wkarma == c.wkarma
      ensures var c := p.all[cd.num];
          cd.up == c.up && cd.isBurned == c.burned && cd.isRdead == c.rdead &&
          cd.id == c.id && cd.isConnecting == c.connecting
    {
    }

    lemma Looks(id: int, p: Pool)
      requires Is(p)
      ensures demux == p.demux && (id in table <==> id in p.table)
      ensures id in table ==> table[id] in crew && table[id].num == p.table[id]
    {
    }

    lemma Has(cd: ClientData, p: Pool)
      requires Is(p) && cd in crew
      ensures cd.outBuf in bufs
    {
    }

    lemma Waiting(cd: ClientData, p: Pool)
      requires Is(p) && cd in crew
      ensures cd.num < |p.all| && cd.outSz == |p.all[cd.num].out| && cd.outPos < CLIENT_KARMA
    {
    }

    lemma Member(cd: ClientData, p: Pool)
      requires Is(p) && cd in crew
      ensures cd.num < |p.all| == |clients| && clients[cd.num] == cd && cd.Shows(p.all[cd.num])
      ensures forall k | 0 <= k < |clients| && k != cd.num :: clients[k] != cd && clients[k].outBuf != cd.outBuf
      ensures cd.num !in p.writeQ ==> cd.next == null
      ensures cd.num !in p.karmaQ ==> cd.karmaNext == null
    {
    }

    /** Nobody has joined. */
    twostate predicate Kept()
      reads `clients, `crew, `bufs
    {
      clients == old(clients) && crew == old(crew) && bufs == old(bufs)
    }

    twostate lemma WriteKept(q: seq<nat>)
      requires old(Members() && WriteLinks(q)) && Kept() && writeHead == old(writeHead) && writeTail == old(writeTail)
      requires forall k | 0 <= k < |clients| ::
          clients[k].next == old(clients[k].next)
      ensures Members() && WriteLinks(q)
    {
    }

    twostate lemma KarmaKept(q: seq<nat>)
      requires old(Members() && KarmaLinks(q)) && Kept() && karmaHead == old(karmaHead) && karmaTail == old(karmaTail)
      requires forall k | 0 <= k < |clients| :: clients[k].karmaNext == old(clients[k].karmaNext)
      ensures Members() && KarmaLinks(q)
    {
    }

    twostate lemma TableKept(t: map<int, nat>)
      requires old(TableShows(t)) && Kept() && table == old(table)
      ensures TableShows(t)
    {
    }

    twostate lemma MembersKept()
      requires old(Members()) && Kept()
      ensures Members()
    {
    }

    /** Only one client shows something else. */
    twostate lemma ShowKept(e: Edit)
      requires old(Members() && AllShow(e.pool.all)) && Kept() && e.num < |clients|
      requires forall k | 0 <= k < |clients| && k != e.num :: clients[k].Still()
      requires clients[e.num].Shows(e.client)
      ensures Members() && AllShow(e.pool.all[e.num := e.client])
    {
      hide ClientData.Shows, ClientData.Still;
      forall k | 0 <= k < |clients|
        ensures clients[k].Shows(e.pool.all[e.num := e.client][k])
      {
        if k != e.num {
          clients[k].Unmoved(e.pool.all[k]);
        }
      }
    }

    twostate lemma AllKept(all: seq<Client>)
      requires old(Members() && AllShow(all)) && Kept()
      requires forall k | 0 <= k < |clients| :: clients[k].Still()
      ensures Members() && AllShow(all)
    {
      hide ClientData.Shows, ClientData.Still;
      forall h | 0 <= h < |clients|
        ensures clients[h].Shows(all[h])
      {
        clients[h].Unmoved(all[h]);
      }
    }

    /** The lists and the table start where they started. */
    twostate predicate Anchored()
      reads this
    {
      && Kept() && table == old(table)
      && writeHead == old(writeHead) && writeTail == old(writeTail)
      && karmaHead == old(karmaHead) && karmaTail == old(karmaTail)
    }

    /** Assignments to the plain fields or the buffer of one client. */
    twostate lemma Assigned(e: Edit)
      requires old(Is(e.pool)) && Anchored() && e.num < |e.pool.all| == |clients|
      requires forall k | 0 <= k < |clients| ::
          clients[k].next == old(clients[k].next) && clients[k].karmaNext == old(clients[k].karmaNext)
      requires forall k | 0 <= k < |clients| && k != e.num :: clients[k].Still()
      requires clients[e.num].Shows(e.client)
      ensures Is(Set(e.pool, e.num, e.client))
    {
      OldParts(e.pool);
      hide ClientData.Shows, ClientData.Still, Members, AllShow, TableShows, WriteLinks, KarmaLinks;
      MembersKept();
      ShowKept(e);
      TableKept(e.pool.table);
      WriteKept(e.pool.writeQ);
      KarmaKept(e.pool.karmaQ);
      Whole(Set(e.pool, e.num, e.client));
    }

    twostate lemma OldParts(p: Pool)
      requires old(Is(p))
      ensures old(Members() && AllShow(p.all) && TableShows(p.table)) && |p.all| == |old(clients)|
      ensures old(WriteLinks(p.writeQ) && KarmaLinks(p.karmaQ)) && p.demux == demux
    {
    }

    /** Only the links of the write list have changed. */
    twostate lemma WriteRelinked(r: Relink)
      requires old(Is(r.pool)) && Kept() && table == old(table)
      requires karmaHead == old(karmaHead) && karmaTail == old(karmaTail)
      requires forall k | 0 <= k < |clients| :: clients[k].karmaNext == old(clients[k].karmaNext)
      requires forall k | 0 <= k < |clients| :: clients[k].Still()
      requires Members() && WriteLinks(r.queue)
      ensures Is(r.pool.(writeQ := r.queue))
    {
      OldParts(r.pool);
      hide ClientData.Still, Members, AllShow, TableShows, WriteLinks, KarmaLinks;
      MembersKept();
      AllKept(r.pool.all);
      TableKept(r.pool.table);
      KarmaKept(r.pool.karmaQ);
      Whole(r.pool.(writeQ := r.queue));
    }

    /** Only the links of the karma list have changed. */
    twostate lemma KarmaRelinked(r: Relink)
      requires old(Is(r.pool)) && Kept() && table == old(table)
      requires writeHead == old(writeHead) && writeTail == old(writeTail)
      requires forall k | 0 <= k < |clients| :: clients[k].next == old(clients[k].next)
      requires forall k | 0 <= k < |clients| :: clients[k].Still()
      requires Members() && KarmaLinks(r.queue)
      ensures Is(r.pool.(karmaQ := r.queue))
    {
      OldParts(r.pool);
      hide ClientData.Still, Members, AllShow, TableShows, WriteLinks, KarmaLinks;
      MembersKept();
      AllKept(r.pool.all);
      TableKept(r.pool.table);
      WriteKept(r.pool.writeQ);
      Whole(r.pool.(karmaQ := r.queue));
    }

    /** Links a client in at the end of the write list. */
    method LinkWriter(cd: ClientData, ghost p: Pool) returns (first: bool)
      requires Is(p) && cd in crew && Distinct(p.writeQ) && cd.num !in p.writeQ
      modifies `writeHead, `writeTail, crew`next
      ensures Is(p.(writeQ := p.writeQ + [cd.num]))
      ensures first <==> p.writeQ == []
    {
      hide Members, AllShow, TableShows, KarmaLinks, WriteLinks, Is, ClientData.Still;
      Parts(p);
      first := AppendWriter(cd, p.writeQ);
      WriteRelinked(Relink(p, p.writeQ + [cd.num]));
    }

    method AppendWriter(cd: ClientData, ghost q: seq<nat>) returns (first: bool)
      requires Members() && WriteLinks(q) && cd in crew && Distinct(q) && cd.num !in q
      modifies `writeHead, `writeTail, crew`next
      ensures Members() && WriteLinks(q + [cd.num])
      ensures first <==> q == []
      ensures forall k | 0 <= k < |clients| :: clients[k].Still()
    {
      assert clients[cd.num] == cd;
      first := writeHead == null;
      if writeHead != null {
        assert writeTail == clients[q[|q| - 1]];
        writeTail.next := cd;
        writeTail := cd;
      } else {
        writeHead := cd;
        writeTail := cd;
      }
    }

    method LinkKarma(cd: ClientData, ghost p: Pool) returns (first: bool)
      requires Is(p) && cd in crew && Distinct(p.karmaQ) && cd.num !in p.karmaQ
      modifies `karmaHead, `karmaTail, crew`karmaNext
      ensures Is(p.(karmaQ := p.karmaQ + [cd.num]))
      ensures first <==> p.karmaQ == []
    {
      hide Members, AllShow, TableShows, KarmaLinks, WriteLinks, Is, ClientData.Still;
      Parts(p);
      first := AppendKarma(cd, p.karmaQ);
      KarmaRelinked(Relink(p, p.karmaQ + [cd.num]));
    }

    method AppendKarma(cd: ClientData, ghost q: seq<nat>) returns (first: bool)
      requires Members() && KarmaLinks(q) && cd in crew && Distinct(q) && cd.num !in q
      modifies `karmaHead, `karmaTail, crew`karmaNext
      ensures Members() && KarmaLinks(q + [cd.num])
      ensures first <==> q == []
      ensures forall k | 0 <= k < |clients| :: clients[k].Still()
    {
      assert clients[cd.num] == cd;
      assert cd.karmaNext == null;
      first := karmaHead == null;
      if karmaHead != null {
        assert karmaTail == clients[q[|q| - 1]];
        karmaTail.karmaNext := cd;
        karmaTail := cd;
      } else {
        karmaHead := cd;
        karmaTail := cd;
      }
    }

    /** Takes the first client off the write list. */
    method UnlinkWriter(ghost p: Pool) returns (cd: ClientData)
      requires Is(p) && p.writeQ != [] && Distinct(p.writeQ)
      modifies `writeHead, crew`next
      ensures Is(p.(writeQ := p.writeQ[1..]))
      ensures cd in crew && cd.num == p.writeQ[0] < |p.all| == |clients| && clients[cd.num] == cd
    {
      hide Members, AllShow, TableShows, KarmaLinks, WriteLinks, Is, ClientData.Still;
      Parts(p);
      cd := DropWriter(p.writeQ);
      WriteRelinked(Relink(p, p.writeQ[1..]));
    }

    method DropWriter(ghost q: seq<nat>) returns (cd: ClientData)
      requires Members() && WriteLinks(q) && q != [] && Distinct(q)
      modifies `writeHead, crew`next
      ensures Members() && WriteLinks(q[1..])
      ensures cd in crew && cd.num == q[0] < |clients| && clients[cd.num] == cd
      ensures forall k | 0 <= k < |clients| :: clients[k].Still()
    {
      cd := writeHead;
      writeHead := writeHead.next;
      cd.next := null;
      WriteDropped(q);
    }

    twostate lemma WriteDropped(q: seq<nat>)
      requires old(Members() && WriteLinks(q)) && q != [] && Distinct(q) && Kept()
      requires writeHead == old(writeHead.next) && writeTail == old(writeTail) && clients[q[0]].next == null
      requires forall k | 0 <= k < |clients| && k != q[0] :: clients[k].next == old(clients[k].next)
      ensures Members() && WriteLinks(q[1..])
    {
      Popped(q);
      var rest := q[1..];
      assert |rest| == |q| - 1 && forall i | 0 <= i < |rest| :: rest[i] == q[i + 1];
      if rest != [] {
        var last := |rest| - 1;
        assert rest[0] == q[1] && rest[last] == q[last + 1] && q[0] != q[last + 1];
        assert writeHead == clients[rest[0]] && writeTail == clients[rest[last]];
        assert clients[rest[last]].next == null;
      } else {
        assert q[0] == q[|q| - 1] && writeHead == null;
      }
      forall h | 0 <= h < |clients| && h !in rest
        ensures clients[h].next == null
      {
        assert h == q[0] || h !in q;
      }
    }

    method UnlinkKarma(ghost p: Pool) returns (cd: ClientData)
      requires Is(p) && p.karmaQ != [] && Distinct(p.karmaQ)
      modifies `karmaHead, crew`karmaNext
      ensures Is(p.(karmaQ := p.karmaQ[1..]))
      ensures cd in crew && cd.num == p.karmaQ[0] < |p.all| == |clients| && clients[cd.num] == cd
    {
      hide Members, AllShow, TableShows, KarmaLinks, WriteLinks, Is, ClientData.Still;
      Parts(p);
      cd := DropKarma(p.karmaQ);
      KarmaRelinked(Relink(p, p.karmaQ[1..]));
    }

    method DropKarma(ghost q: seq<nat>) returns (cd: ClientData)
      requires Members() && KarmaLinks(q) && q != [] && Distinct(q)
      modifies `karmaHead, crew`karmaNext
      ensures Members() && KarmaLinks(q[1..])
      ensures cd in crew && cd.num == q[0] < |clients| && clients[cd.num] == cd
      ensures forall k | 0 <= k < |clients| :: clients[k].Still()
    {
      cd := karmaHead;
      karmaHead := cd.karmaNext;
      cd.karmaNext := null;
      KarmaDropped(q);
    }

    twostate lemma KarmaDropped(q: seq<nat>)
      requires old(Members() && KarmaLinks(q)) && q != [] && Distinct(q) && Kept()
      requires karmaHead == old(karmaHead.karmaNext) && karmaTail == old(karmaTail) && clients[q[0]].karmaNext == null
      requires forall k | 0 <= k < |clients| && k != q[0] :: clients[k].karmaNext == old(clients[k].karmaNext)
      ensures Members() && KarmaLinks(q[1..])
    {
      Popped(q);
      var rest := q[1..];
      assert |rest| == |q| - 1 && forall i | 0 <= i < |rest| :: rest[i] == q[i + 1];
      if rest != [] {
        var last := |rest| - 1;
        assert rest[0] == q[1] && rest[last] == q[last + 1] && q[0] != q[last + 1];
        assert karmaHead == clients[rest[0]] && karmaTail == clients[rest[last]];
        assert clients[rest[last]].karmaNext == null;
      } else {
        assert q[0] == q[|q| - 1] && karmaHead == null;
      }
      forall h | 0 <= h < |clients| && h !in rest
        ensures clients[h].karmaNext == null
      {
        assert h == q[0] || h !in q;
      }
    }

    method AssignQueued(cd: ClientData, v: bool, ghost p: Pool)
      requires Is(p) && cd in crew
      modifies cd`inWriteQueue
      ensures cd.num < |p.all| && Is(Set(p, cd.num, p.all[cd.num].(queued := v)))
    {
      hide Is, Members, ClientData.Shows;
      Member(cd, p);
      cd.AssignQueued(v, p.all[cd.num]);
      Assigned(Edit(p, cd.num, p.all[cd.num].(queued := v)));
    }

    method AssignUp(cd: ClientData, v: bool, ghost p: Pool)
      requires Is(p) && cd in crew
      modifies cd`up
      ensures cd.num < |p.all| && Is(Set(p, cd.num, p.all[cd.num].(up := v)))
    {
      hide Is, Members, ClientData.Shows;
      Member(cd, p);
      cd.AssignUp(v, p.all[cd.num]);
      Assigned(Edit(p, cd.num, p.all[cd.num].(up := v)));
    }

    method AssignConnecting(cd: ClientData, v: bool, ghost p: Pool)
      requires Is(p) && cd in crew
      modifies cd`isConnecting
      ensures cd.isConnecting == v
      ensures cd.num < |p.all| && Is(Set(p, cd.num, p.all[cd.num].(connecting := v)))
      ensures cd.isConnecting == v
    {
      hide Is, Members, ClientData.Shows;
      Member(cd, p);
      cd.AssignConnecting(v, p.all[cd.num]);
      Assigned(Edit(p, cd.num, p.all[cd.num].(connecting := v)));
    }

    method AssignBurned(cd: ClientData, v: bool, ghost p: Pool)
      requires Is(p) && cd in crew
      modifies cd`isBurned
      ensures cd.num < |p.all| && Is(Set(p, cd.num, p.all[cd.num].(burned := v)))
    {
      hide Is, Members, ClientData.Shows;
      Member(cd, p);
      cd.AssignBurned(v, p.all[cd.num]);
      Assigned(Edit(p, cd.num, p.all[cd.num].(burned := v)));
    }

    method AssignRdead(cd: ClientData, v: bool, ghost p: Pool)
      requires Is(p) && cd in crew
      modifies cd`isRdead
      ensures cd.num < |p.all| && Is(Set(p, cd.num, p.all[cd.num].(rdead := v, told := v)))
    {
      hide Is, Members, ClientData.Shows;
      Member(cd, p);
      cd.AssignRdead(v, p.all[cd.num]);
      Assigned(Edit(p, cd.num, p.all[cd.num].(rdead := v, told := v)));
    }

    method AssignWkarma(cd: ClientData, v: int, ghost p: Pool)
      requires Is(p) && cd in crew
      modifies cd`wkarma
      ensures cd.num < |p.all| && Is(Set(p, cd.num, p.all[cd.num].(wkarma := v)))
    {
      hide Is, Members, ClientData.Shows;
      Member(cd, p);
      cd.AssignWkarma(v, p.all[cd.num]);
      Assigned(Edit(p, cd.num, p.all[cd.num].(wkarma := v)));
    }

    method AssignRkarma(cd: ClientData, v: int, ghost p: Pool)
      requires Is(p) && cd in crew
      modifies cd`rkarma
      ensures cd.num < |p.all| && Is(Set(p, cd.num, p.all[cd.num].(rkarma := v)))
    {
      hide Is, Members, ClientData.Shows;
      Member(cd, p);
      cd.AssignRkarma(v, p.all[cd.num]);
      Assigned(Edit(p, cd.num, p.all[cd.num].(rkarma := v)));
    }

    method PushWriter(cd: ClientData, ghost p: Pool) returns (wake: bool)
      requires Is(p) && cd in crew && cd.num < |p.all|
      requires Distinct(p.writeQ) && (cd.num in p.writeQ <==> p.all[cd.num].queued)
      modifies `writeHead, `writeTail, crew
      ensures cd.num < |p.all| && Is(PoolState.PushWriter(p, cd.num))
      ensures wake <==> !p.all[cd.num].queued && p.writeQ == []
    {
      hide *;
      Member(cd, p);
      Flags(cd, p);
      Pushed(p, cd.num);
      if cd.inWriteQueue {
        return false;
      }
      if cd.next != null {
        assert false;
      }
      AssignQueued(cd, true, p);
      wake := LinkWriter(cd, Set(p, cd.num, p.all[cd.num].(queued := true)));
    }

    /** The control client is the first in client_table. */
    method Control(ghost p: Pool) returns (cd: ClientData)
      requires Is(p) && 0 in p.table && p.table[0] == 0
      ensures cd in crew && cd.num == 0
    {
      cd := table[0];
    }

    /** set_rkarma; the caller of a method with a result `wake` tries mainw when it is true. */
    method SetRkarma(cd: ClientData, nkarma: int, ghost p: Pool) returns (wake: bool)
      requires Is(p) && Ready(p) && cd in crew
      modifies `writeHead, `writeTail, `karmaHead, `karmaTail, crew
      ensures cd.num < |p.all| && Is(PoolState.SetRkarma(p, cd.num, nkarma))
      ensures wake ==> PoolState.SetRkarma(p, cd.num, nkarma).writeQ == [0]
    {
      hide *;
      Member(cd, p);
      Flags(cd, p);
      IsOnKarmaList(p, cd.num);
      Karmas(p, cd.num, nkarma);
      var noqueue := 0 <= cd.rkarma < ACK_THRESHOLD;
      AssignRkarma(cd, nkarma, p);
      ghost var q := Set(p, cd.num, p.all[cd.num].(rkarma := nkarma));
      wake := false;
      if noqueue && (nkarma == -1 || ACK_THRESHOLD <= nkarma) {
        assert cd.karmaNext == null;
        var first := LinkKarma(cd, q);
        if first {
          ghost var r := q.(karmaQ := q.karmaQ + [cd.num]);
          ReadyControl(p);
          Pushed(r, 0);
          var control := Control(r);
          wake := PushWriter(control, r);
        }
      }
    }

    /** disconnect_client, once the socket is closed. */
    method DisconnectClient(cd: ClientData, ghost p: Pool) returns (wake: bool)
      requires Is(p) && Ready(p) && cd in crew
      modifies `writeHead, `writeTail, `karmaHead, `karmaTail, crew
      ensures cd.num < |p.all| && Is(Disconnect(p, cd.num))
      ensures wake ==> Disconnect(p, cd.num).writeQ == [0]
    {
      hide *;
      Member(cd, p);
      Disconnects(p, cd.num);
      AssignUp(cd, false, p);
      wake := SetRkarma(cd, -1, Set(p, cd.num, p.all[cd.num].(up := false)));
    }

    /** The slot of a client is freed. */
    method BurnClient(cd: ClientData, ghost p: Pool)
      requires Is(p) && cd in crew
      modifies `table, cd`isBurned
      ensures cd.num < |p.all| && Is(Burn(p, cd.num))
    {
      hide *;
      Member(cd, p);
      Flags(cd, p);
      Burns(p, cd.num);
      AssignBurned(cd, true, p);
      Unlist(cd, Set(p, cd.num, p.all[cd.num].(burned := true)));
    }

    method Unlist(cd: ClientData, ghost p: Pool)
      requires Is(p) && cd in crew
      modifies `table
      ensures cd.num < |p.all| && Is(p.(table := p.table - {p.all[cd.num].id}))
    {
      hide *;
      Parts(p);
      Flags(cd, p);
      DropEntry(cd.id, p.table);
      Whole(p.(table := p.table - {p.all[cd.num].id}));
    }

    method DropEntry(id: int, ghost t: map<int, nat>)
      requires TableShows(t)
      modifies `table
      ensures TableShows(t - {id})
    {
      table := table - {id};
    }

    /** The search of allocate_client for the lowest free id. */
    method LowestFree(ghost p: Pool) returns (id: int)
      requires Is(p)
      ensures IsLowestFree(p.table, id)
    {
      id := 0;
      ghost var left := table.Keys;
      while id in table
        invariant 0 <= id && forall j | 0 <= j < id :: j in table
        invariant left <= table.Keys && forall j | j in table && j >= id :: j in left
        decreases |left|
      {
        left := left - {id};
        id := id + 1;
      }
    }

    /** allocate_client for an id that is not in use. */
    method AllocateClient(id: int, ghost p: Pool) returns (cd: ClientData)
      requires Is(p) && id !in p.table
      modifies `table, `clients, `crew, `bufs
      ensures Is(Allocate(p, id))
      ensures clients == old(clients) + [cd] && crew == old(crew) + {cd} && bufs == old(bufs) + {cd.outBuf}
      ensures fresh(cd) && fresh(cd.outBuf) && cd.num == |p.all|
    {
      hide *;
      Parts(p);
      cd := new ClientData(id, |clients|);
      Enroll(cd, id, p);
    }

    method Requeue(cd: ClientData, again: bool, ghost p: Pool)
      requires Is(p) && cd in crew && Distinct(p.writeQ) && (again ==> cd.num !in p.writeQ)
      modifies `writeHead, `writeTail, crew
      ensures cd.num < |p.all| && Is(PoolState.Requeue(p, cd.num, again))
    {
      hide *;
      Member(cd, p);
      Requeues(p, cd.num);
      if again {
        var first := LinkWriter(cd, p);
      } else {
        AssignQueued(cd, false, p);
      }
    }

    /** History is not in the fields. */
    lemma History(p: Pool, q: Pool)
      requires Is(p) && Alike(p, q)
      ensures Is(q)
    {
      hide ClientData.Holds;
      Parts(p);
      forall h | 0 <= h < |clients|
        ensures clients[h].Shows(q.all[h])
      {
        assert clients[h].Shows(p.all[h]);
      }
    }

    /** One turn of the loop in write_ack: the pair it writes. */
    method TakeNote(ghost p: Pool) returns (id: int, karma: int)
      requires Is(p) && p.karmaQ != [] && Distinct(p.karmaQ)
      modifies `table, `karmaHead, crew
      ensures p.karmaQ[0] < |p.all| && id == p.all[p.karmaQ[0]].id && karma == p.all[p.karmaQ[0]].rkarma
      ensures Is(PoolState.TakeNote(p))
    {
      hide *;
      Heads(p);
      NoteTaken(p);
      ghost var h := p.karmaQ[0];
      var cd := UnlinkKarma(p);
      ghost var q := p.(karmaQ := p.karmaQ[1..]);
      Flags(cd, q);
      id, karma := cd.id, cd.rkarma;
      AssignRkarma(cd, 0, q);
      ghost var r := Set(q, h, q.all[h].(rkarma := 0));
      Flags(cd, r);
      if cd.isRdead {
        BurnClient(cd, r);
        History(Burn(r, h), PoolState.TakeNote(p));
      } else {
        History(r, PoolState.TakeNote(p));
      }
    }

    /** mainr: a payload goes behind what is in out_buf. */
    method Receive(cd: ClientData, data: seq<byte>, ghost p: Pool)
      requires Is(p) && cd in crew && cd.outSz + |data| <= CLIENT_KARMA
      modifies cd`outSz, cd.outBuf
      ensures cd.num < |p.all| && Is(Set(p, cd.num, p.all[cd.num].(out := p.all[cd.num].out + data)))
    {
      hide Is, Members, ClientData.Shows;
      Member(cd, p);
      cd.Fill(data, p.all[cd.num]);
      Assigned(Edit(p, cd.num, p.all[cd.num].(out := p.all[cd.num].out + data)));
    }

    /** clientw: the first n bytes of out_buf are gone. */
    method Flush(cd: ClientData, n: nat, ghost p: Pool)
      requires Is(p) && cd in crew && cd.num < |p.all| && 1 <= n <= |p.all[cd.num].out|
      modifies cd`outPos, cd`outSz
      ensures Is(Set(p, cd.num, p.all[cd.num].(out := p.all[cd.num].out[n..])))
    {
      hide Is, Members, ClientData.Shows;
      Member(cd, p);
      cd.Drain(n, p.all[cd.num]);
      Assigned(Edit(p, cd.num, p.all[cd.num].(out := p.all[cd.num].out[n..])));
    }

    /** mainw has read `data` from a client it took off the write list. */
    method Collected(cd: ClientData, data: seq<byte>, end: End, ghost p: Pool)
      requires Tidy(p) && CanCollect(p, data, end) && Is(Pop(p)) && cd in crew && cd.num == p.writeQ[0]
      modifies `writeHead, `writeTail, `karmaHead, `karmaTail, crew
      ensures Is(Collect(p, data, end))
    {
      hide *;
      ghost var h := cd.num;
      Collecting(p, data, end);
      ghost var r := Hung(p, data, end);
      if end.Broken? && data == [] {
        var wake := DisconnectClient(cd, Pop(p));
      }
      Flags(cd, r);
      AssignWkarma(cd, cd.wkarma - |data|, r);
      ghost var s := Set(r, h, r.all[h].(wkarma := r.all[h].wkarma - |data|));
      Flags(cd, s);
      var again := end.Filled? && cd.wkarma > 0;
      assert again ==> data != [];
      Requeue(cd, again, s);
      History(PoolState.Requeue(s, h, again), Collect(p, data, end));
    }

    /** clientw: n bytes of out_buf have gone to the socket and are to be acknowledged. */
    method Delivered(cd: ClientData, n: nat, ghost p: Pool) returns (wake: bool)
      requires Tidy(p) && CanDeliver(p, cd.num, n) && Is(p) && cd in crew
      modifies `writeHead, `writeTail, `karmaHead, `karmaTail, crew
      ensures Is(Deliver(p, cd.num, n))
      ensures wake ==> Deliver(p, cd.num, n).writeQ == [0]
    {
      hide *;
      Delivering(p, cd.num, n);
      Flags(cd, p);
      ghost var q := Set(p, cd.num, p.all[cd.num].(out := p.all[cd.num].out[n..]));
      Flush(cd, n, p);
      Flags(cd, q);
      wake := SetRkarma(cd, cd.rkarma + n, q);
      AlikeQueue(PoolState.SetRkarma(q, cd.num, p.all[cd.num].rkarma + n), Deliver(p, cd.num, n));
      History(PoolState.SetRkarma(q, cd.num, p.all[cd.num].rkarma + n), Deliver(p, cd.num, n));
    }

    /** get_client on the demux side for an id it does not know: how its connection starts is up to the network. */
    method Introduced(id: int, outcome: Outcome, ghost p: Pool) returns (cd: ClientData, wake: bool)
      requires Is(p) && Tidy(p) && 0 < id < MAX_CLIENTS && id !in p.table
      modifies `table, `clients, `crew, `bufs, `writeHead, `writeTail, `karmaHead, `karmaTail, crew
      ensures Is(Introduce(p, id, outcome))
      ensures crew == old(crew) + {cd} && bufs == old(bufs) + {cd.outBuf} && cd.num == |p.all|
      ensures fresh(cd) && fresh(cd.outBuf)
    {
      hide *;
      Introducing(p, id, outcome);
      cd := AllocateClient(id, p);
      ghost var h, q := cd.num, Allocate(p, id);
      AssignUp(cd, true, q);
      ghost var r := Set(q, h, q.all[h].(up := true));
      AssignConnecting(cd, !outcome.Connected?, r);
      ghost var s := Set(r, h, r.all[h].(connecting := !outcome.Connected?));
      AssignWkarma(cd, 0, s);
      wake := false;
      if outcome.Refused? {
        wake := DisconnectClient(cd, Set(s, h, s.all[h].(wkarma := 0)));
      }
    }

    /** A connection accepted on the mux side. */
    method Accepted(ghost p: Pool) returns (cd: ClientData, ghost id: int, wake: bool)
      requires Is(p) && Tidy(p) && exists id | 0 < id < MAX_CLIENTS :: id !in p.table
      modifies `table, `clients, `crew, `bufs, `writeHead, `writeTail, `karmaHead, `karmaTail, crew
      ensures 0 < id < MAX_CLIENTS && IsLowestFree(p.table, id) && Is(Accept(p, id))
      ensures crew == old(crew) + {cd} && bufs == old(bufs) + {cd.outBuf} && cd.num == |p.all|
      ensures fresh(cd) && fresh(cd.outBuf)
    {
      hide *;
      var nid := LowestFree(p);
      id := nid;
      Accepting(p, nid);
      cd := AllocateClient(nid, p);
      ghost var h, q := cd.num, Allocate(p, nid);
      AssignUp(cd, true, q);
      wake := SetRkarma(cd, CLIENT_KARMA, Set(q, h, q.all[h].(up := true)));
    }

    /** read_ack: what one pair of an acknowledgment does to its client. */
    method Credited(cd: ClientData, karma: int, ghost p: Pool) returns (wake: bool)
      requires Is(p) && Tidy(p) && cd in crew && 0 < cd.num < |p.all| && !p.all[cd.num].burned
      modifies `table, `writeHead, `writeTail, `karmaHead, `karmaTail, crew
      ensures cd.num < |p.all| && p.all[cd.num].id in p.table && p.table[p.all[cd.num].id] == cd.num
      ensures Is(Handle(p, Credit(p.all[cd.num].id, karma)))
    {
      hide *;
      ghost var h, id := cd.num, p.all[cd.num].id;
      Crediting(p, h, karma);
      Flags(cd, p);
      wake := false;
      if karma >= 0 {
        AssignWkarma(cd, cd.wkarma + karma, p);
        wake := PushWriter(cd, Set(p, h, p.all[h].(wkarma := p.all[h].wkarma + karma)));
      } else if cd.up {
        AssignRdead(cd, true, p);
        wake := DisconnectClient(cd, Set(p, h, p.all[h].(rdead := true, told := true)));
      } else if cd.rkarma == 0 {
        BurnClient(cd, p);
        History(Burn(p, h), Handle(p, Credit(id, karma)));
      } else {
        AssignRdead(cd, true, p);
      }
    }

    method Enroll(cd: ClientData, id: int, ghost p: Pool)
      requires Is(p) && id !in p.table
      requires cd !in crew && cd.outBuf !in bufs && cd.num == |clients| && cd.next == null && cd.karmaNext == null
      requires cd.Shows(NewClient(id))
      modifies `table, `clients, `crew, `bufs
      ensures clients == old(clients) + [cd] && crew == old(crew) + {cd} && bufs == old(bufs) + {cd.outBuf}
      ensures Is(Allocate(p, id))
    {
      hide Members, AllShow, TableShows, WriteLinks, KarmaLinks, Is, Allocate, ClientData.Shows, Joined,
          ClientData.Still;
      Append(cd);
      table := table[id := cd];
      Joins(Newcomer(p, id));
    }

    method Append(cd: ClientData)
      requires cd !in crew && cd.outBuf !in bufs && cd.num == |clients|
      modifies `clients, `crew, `bufs
      ensures clients == old(clients) + [cd] && crew == old(crew) + {cd} && bufs == old(bufs) + {cd.outBuf}
      ensures Joined() && clients[|clients| - 1] == cd
      ensures forall k | 0 <= k < |clients| - 1 ::
        clients[k].Still() && clients[k].next == old(clients[k].next) &&
            clients[k].karmaNext == old(clients[k].karmaNext)
    {
      clients, crew, bufs := clients + [cd], crew + {cd}, bufs + {cd.outBuf};
    }

    /** The last client is new. */
    twostate predicate Joined()
      reads `clients, `crew, `bufs
    {
      && |clients| == |old(clients)| + 1
      && var cd := clients[|old(clients)|];
      && clients == old(clients) + [cd] && crew == old(crew) + {cd} && bufs == old(bufs) + {cd.outBuf}
      && cd !in old(crew) && cd.outBuf !in old(bufs) && cd.num == |old(clients)|
    }

    twostate lemma JoinMembers()
      requires old(Members()) && Joined()
      ensures Members()
    {
    }

    twostate lemma JoinShows(j: Newcomer)
      requires old(Members() && AllShow(j.pool.all)) && Joined() && Members()
      requires forall k | 0 <= k < |clients| - 1 :: clients[k].Still()
      requires clients[|clients| - 1].Shows(NewClient(j.id))
      ensures AllShow(j.pool.all + [NewClient(j.id)])
    {
      hide ClientData.Shows, ClientData.Still, Members;
      forall k | 0 <= k < |clients|
        ensures clients[k].Shows((j.pool.all + [NewClient(j.id)])[k])
      {
        if k < |clients| - 1 {
          clients[k].Unmoved(j.pool.all[k]);
        }
      }
    }

    twostate lemma JoinTable(j: Newcomer)
      requires old(TableShows(j.pool.table)) && Joined() && |j.pool.all| == |old(clients)|
      requires table == old(table)[j.id := clients[|clients| - 1]]
      ensures TableShows(j.pool.table[j.id := |j.pool.all|])
    {
    }

    twostate lemma JoinWrite(q: seq<nat>)
      requires old(Members() && WriteLinks(q)) && Joined() && Members()
      requires writeHead == old(writeHead) && writeTail == old(writeTail)
      requires forall k | 0 <= k < |old(clients)| :: clients[k].next == old(clients[k].next)
      requires clients[|clients| - 1].next == null
      ensures WriteLinks(q)
    {
    }

    twostate lemma JoinKarma(q: seq<nat>)
      requires old(Members() && KarmaLinks(q)) && Joined() && Members()
      requires karmaHead == old(karmaHead) && karmaTail == old(karmaTail)
      requires forall k | 0 <= k < |old(clients)| :: clients[k].karmaNext == old(clients[k].karmaNext)
      requires clients[|clients| - 1].karmaNext == null
      ensures KarmaLinks(q)
    {
    }

    twostate lemma Joins(j: Newcomer)
      requires old(Is(j.pool)) && Joined()
      requires table == old(table)[j.id := clients[|clients| - 1]]
      requires writeHead == old(writeHead) && writeTail == old(writeTail)
      requires karmaHead == old(karmaHead) && karmaTail == old(karmaTail)
      requires forall k | 0 <= k < |clients| - 1 ::
        clients[k].Still() && clients[k].next == old(clients[k].next) &&
            clients[k].karmaNext == old(clients[k].karmaNext)
      requires var cd := clients[|clients| - 1]; cd.Shows(NewClient(j.id)) && cd.next == null && cd.karmaNext == null
      ensures Is(Allocate(j.pool, j.id))
    {
      OldParts(j.pool);
      hide ClientData.Shows, ClientData.Still, Members, AllShow, TableShows, WriteLinks, KarmaLinks;
      JoinMembers();
      JoinShows(j);
      JoinTable(j);
      JoinWrite(j.pool.writeQ);
      JoinKarma(j.pool.karmaQ);
      Whole(Allocate(j.pool, j.id));
    }
  }

  lemma Drained(buf: seq<byte>, pos: nat, size: nat, n: nat, at: nat)
    requires |buf| == CLIENT_KARMA && pos < CLIENT_KARMA && 1 <= n <= size <= CLIENT_KARMA
    requires at == if pos + n >= CLIENT_KARMA then pos + n - CLIENT_KARMA else pos + n
    ensures Held(buf, at, size - n) == Held(buf, pos, size)[n..]
  {
    hide Held;
    HeldDrop(buf, pos, size, n);
  }

  /** PushWriter on a client that is not queued: a flag, then a link. */
  lemma Pushed(p: Pool, h: nat)
    requires h < |p.all|
    ensures p.all[h].queued ==> PushWriter(p, h) == p
    ensures var q := Set(p, h, p.all[h].(queued := true));
      !p.all[h].queued ==> PushWriter(p, h) == q.(writeQ := q.writeQ + [h])
    ensures Set(p, h, p.all[h].(queued := true)).writeQ == p.writeQ
  {
  }

  lemma Disconnects(p: Pool, h: nat)
    requires Ready(p) && h < |p.all|
    ensures var q := Set(p, h, p.all[h].(up := false)); Ready(q) && Disconnect(p, h) == PoolState.SetRkarma(q, h, -1)
  {
    SetReady(p, h, p.all[h].(up := false));
  }

  lemma Burns(p: Pool, h: nat)
    requires h < |p.all|
    ensures var q := Set(p, h, p.all[h].(burned := true));
      |q.all| == |p.all| && Burn(p, h) == q.(table := q.table - {q.all[h].id})
  {
  }

  lemma Requeues(p: Pool, h: nat)
    requires h < |p.all|
    ensures PoolState.Requeue(p, h, true) == p.(writeQ := p.writeQ + [h])
    ensures PoolState.Requeue(p, h, false) == Set(p, h, p.all[h].(queued := false))
  {
  }

  /** Two pools that differ in history only. */
  ghost predicate Alike(p: Pool, q: Pool) {
    && p.demux == q.demux && p.table == q.table && p.writeQ == q.writeQ && p.karmaQ == q.karmaQ && |p.all| == |q.all|
    && forall h | 0 <= h < |p.all| ::
      q.all[h] == p.all[h].(read := q.all[h].read, written := q.all[h].written, said := q.all[h].said, told :=
          q.all[h].told)
  }

  /** The client mainw has read from, disconnected if its socket is broken. */
  ghost function Hung(p: Pool, data: seq<byte>, end: End): Pool
    requires CanCollect(p, data, end)
  {
    if end.Broken? && data == [] then Disconnect(Pop(p), p.writeQ[0]) else Pop(p)
  }

  lemma Collecting(p: Pool, data: seq<byte>, end: End)
    requires Tidy(p) && CanCollect(p, data, end)
    ensures p.writeQ != [] && Ready(Pop(p))
    ensures (end.Broken? && data == []) ==>
        p.writeQ[0] < |Pop(p).all| &&
        Hung(p, data, end) == Disconnect(Pop(p), p.writeQ[0])
    ensures !(end.Broken? && data == []) ==> Hung(p, data, end) == Pop(p)
    ensures var h, r := p.writeQ[0], Hung(p, data, end);
      && h < |r.all|
      && var s := Set(r, h, r.all[h].(wkarma := r.all[h].wkarma - |data|));
      var again := end.Filled? && s.all[h].wkarma > 0;
      h < |s.all| && Distinct(s.writeQ) && (again ==> h !in s.writeQ && data != []) &&
      Alike(PoolState.Requeue(s, h, again), Collect(p, data, end))
  {
    var h := p.writeQ[0];
    Popped(p.writeQ);
    PopReady(p);
    SaneAt(p, h);
    HungQueue(p, data, end);
    CollectIsAlike(p, data, end);
    hide Tidy, Ready, Collect, Alike, Disconnect;
  }

  lemma HungQueue(p: Pool, data: seq<byte>, end: End)
    requires CanCollect(p, data, end) && Ready(Pop(p)) && p.writeQ[0] !in Pop(p).writeQ
    ensures var r := Hung(p, data, end); |r.all| == |p.all| && Distinct(r.writeQ) && p.writeQ[0] !in r.writeQ
    ensures Hung(p, data, end).all[p.writeQ[0]].wkarma == p.all[p.writeQ[0]].wkarma
  {
    var q, h := Pop(p), p.writeQ[0];
    var d := Set(q, h, q.all[h].(up := false));
    if end.Broken? && data == [] {
      Disconnects(q, h);
      Karmas(d, h, -1);
    }
  }

  lemma CollectIsAlike(p: Pool, data: seq<byte>, end: End)
    requires CanCollect(p, data, end)
    ensures var h, r := p.writeQ[0], Hung(p, data, end);
      && h < |r.all|
      && var s := Set(r, h, r.all[h].(wkarma := r.all[h].wkarma - |data|));
      h < |s.all| && Alike(PoolState.Requeue(s, h, end.Filled? && s.all[h].wkarma > 0), Collect(p, data, end))
  {
    hide Disconnect, Collect, PoolState.Requeue, Alike;
    DisconnectSize(Pop(p), p.writeQ[0]);
    var h, r := p.writeQ[0], Hung(p, data, end);
    var c := r.all[h].(wkarma := r.all[h].wkarma - |data|, read := r.all[h].read + data);
    CollectIs(p, data, end, r, c);
    var t := Set(r, h, c).(sent := if data == [] then r.sent else r.sent + [Sent(Payload(c.id, data), h)]);
    ReadAlike(r, h, |data|, r.all[h].read + data, t.sent);
    RequeueAlike(Set(r, h, r.all[h].(wkarma := r.all[h].wkarma - |data|)), t, h, end.Filled? && c.wkarma > 0);
  }

  lemma ReadAlike(r: Pool, h: nat, n: nat, read: seq<byte>, sent: seq<Sent>)
    requires h < |r.all|
    ensures Alike(Set(r, h, r.all[h].(wkarma := r.all[h].wkarma - n)),
                  Set(r, h, r.all[h].(wkarma := r.all[h].wkarma - n, read := read)).(sent := sent))
  {
  }

  lemma RequeueAlike(p: Pool, q: Pool, h: nat, again: bool)
    requires Alike(p, q) && h < |p.all| && h < |q.all|
    ensures Alike(PoolState.Requeue(p, h, again), PoolState.Requeue(q, h, again))
  {
  }

  lemma Delivering(p: Pool, h: nat, n: nat)
    requires Tidy(p) && CanDeliver(p, h, n)
    ensures h < |p.all| && 1 <= n <= |p.all[h].out|
    ensures var q := Set(p, h, p.all[h].(out := p.all[h].out[n..]));
      && Ready(q) && h < |q.all| && q.all[h].rkarma == p.all[h].rkarma
      && Alike(PoolState.SetRkarma(q, h, p.all[h].rkarma + n), Deliver(p, h, n))
  {
    hide Tidy, Ready, Alike, PoolState.SetRkarma, Sane;
    var c := p.all[h];
    TidyReady(p);
    SetReady(p, h, c.(out := c.out[n..]));
    WrittenAlike(p, h, n);
    RkarmaAlike(Set(p, h, c.(out := c.out[n..])), Set(p, h, c.(out := c.out[n..], written := c.written + c.out[..n])),
        h, c.rkarma + n);
  }

  lemma WrittenAlike(p: Pool, h: nat, n: nat)
    requires h < |p.all| && n <= |p.all[h].out|
    ensures var c := p.all[h];
      Alike(Set(p, h, c.(out := c.out[n..])), Set(p, h, c.(out := c.out[n..], written := c.written + c.out[..n])))
  {
  }

  lemma SetAlike(p: Pool, q: Pool, h: nat, k: int)
    requires Alike(p, q) && h < |p.all| && h < |q.all|
    ensures Alike(Set(p, h, p.all[h].(rkarma := k)), Set(q, h, q.all[h].(rkarma := k)))
  {
  }

  lemma PushAlike(p: Pool, q: Pool)
    requires Alike(p, q) && 0 < |p.all| && 0 < |q.all|
    ensures Alike(PushWriter(p, 0), PushWriter(q, 0))
  {
  }

  lemma KarmaQAlike(p: Pool, q: Pool, k: seq<nat>)
    requires Alike(p, q)
    ensures Alike(p.(karmaQ := k), q.(karmaQ := k))
  {
  }

  lemma AlikeParts(p: Pool, q: Pool, h: nat)
    requires Alike(p, q) && h < |p.all|
    ensures |q.all| == |p.all| && q.karmaQ == p.karmaQ && q.all[h].rkarma == p.all[h].rkarma
  {
  }

  lemma RkarmaAlike(p: Pool, q: Pool, h: nat, k: int)
    requires Alike(p, q) && h < |p.all| && h < |q.all|
    ensures Alike(PoolState.SetRkarma(p, h, k), PoolState.SetRkarma(q, h, k))
  {
    AlikeParts(p, q, h);
    SetAlike(p, q, h, k);
    hide Alike, PushWriter;
    var r, s := Set(p, h, p.all[h].(rkarma := k)), Set(q, h, q.all[h].(rkarma := k));
    KarmaQAlike(r, s, p.karmaQ + [h]);
    PushAlike(r.(karmaQ := p.karmaQ + [h]), s.(karmaQ := p.karmaQ + [h]));
  }

  lemma AlikeQueue(p: Pool, q: Pool)
    requires Alike(p, q)
    ensures p.writeQ == q.writeQ
  {
  }

  lemma Introducing(p: Pool, id: int, outcome: Outcome)
    requires Tidy(p) && 0 < id < MAX_CLIENTS && id !in p.table
    ensures var h, q := |p.all|, Allocate(p, id);
      && h < |q.all|
      && var r := Set(q, h, q.all[h].(up := true));
      h < |r.all| &&
      var s := Set(r, h, r.all[h].(connecting := !outcome.Connected?));
      h < |s.all| &&
      var t := Set(s, h, s.all[h].(wkarma := 0));
      Ready(t) && h < |t.all| && Introduce(p, id, outcome) == if outcome.Refused? then Disconnect(t, h) else t
  {
    hide Ready, Tidy, Disconnect;
    TidyReady(p);
    ReadyControl(p);
    var up := if outcome.Connected? then Connected else InProgress;
    IntroduceTidy(p, id, up);
    TidyReady(Introduce(p, id, up));
    var h, q := |p.all|, Allocate(p, id);
    var r := Set(q, h, q.all[h].(up := true));
    var s := Set(r, h, r.all[h].(connecting := !outcome.Connected?));
    var t := Set(s, h, s.all[h].(wkarma := 0));
    assert t == Set(q, h, q.all[h].(up := true, connecting := !outcome.Connected?, wkarma := 0));
  }

  lemma Accepting(p: Pool, id: int)
    requires Tidy(p) && IsLowestFree(p.table, id) && exists i | 0 < i < MAX_CLIENTS :: i !in p.table
    ensures 0 < id < MAX_CLIENTS && id !in p.table
    ensures var h, q := |p.all|, Allocate(p, id);
      && h < |q.all|
      && var r := Set(q, h, q.all[h].(up := true));
      Ready(r) && h < |r.all| && Accept(p, id) == PoolState.SetRkarma(r, h, CLIENT_KARMA)
  {
    FreeId(p, id);
    var h, q := |p.all|, Allocate(p, id);
    var c := NewClient(id).(up := true);
    AllocateTidy(p, id, c);
    assert Set(q, h, q.all[h].(up := true)) == p.(all := p.all + [c], table := p.table[id := h]);
    TidyReady(p.(all := p.all + [c], table := p.table[id := h]));
    hide Tidy, Ready;
  }

  lemma FreeId(p: Pool, id: int)
    requires Tidy(p) && IsLowestFree(p.table, id) && exists i | 0 < i < MAX_CLIENTS :: i !in p.table
    ensures 0 < id < MAX_CLIENTS && id !in p.table
  {
    assert 0 in p.table;
    var i :| 0 < i < MAX_CLIENTS && i !in p.table;
    assert !(i < id);
  }

  lemma Crediting(p: Pool, h: nat, karma: int)
    requires Tidy(p) && 0 < h < |p.all| && !p.all[h].burned
    ensures p.all[h].id in p.table && p.table[p.all[h].id] == h
    ensures var c, r := p.all[h], Handle(p, Credit(p.all[h].id, karma));
      if karma >= 0 then
        var q := Set(p, h, c.(wkarma := c.wkarma + karma));
        h < |q.all| && Distinct(q.writeQ) && (h in q.writeQ <==> q.all[h].queued) && r == PoolState.PushWriter(q, h)
      else if c.up then
        var q := Set(p, h, c.(rdead := true, told := true));
        Ready(q) && h < |q.all| && r == Disconnect(q, h)
      else if c.rkarma == 0 then Alike(Burn(p, h), r)
      else r == Set(p, h, c.(rdead := true, told := true))
  {
    TidyReady(p);
    var c := p.all[h];
    SetReady(p, h, c.(rdead := true, told := true));
    hide Ready, Disconnect;
    if karma < 0 && !c.up && c.rkarma == 0 {
      BurnAlike(p, h);
    }
  }

  lemma BurnAlike(p: Pool, h: nat)
    requires h < |p.all|
    ensures Alike(Burn(p, h), Burn(Set(p, h, p.all[h].(told := true)), h))
  {
  }

  lemma Newborn(demux: bool)
    ensures Allocate(Pool(demux, [], map[], [], [], []), 0) == FreshPool(demux)
  {
  }

  lemma NoteTaken(p: Pool)
    requires p.karmaQ != [] && p.karmaQ[0] < |p.all| && Distinct(p.karmaQ)
    ensures var h := p.karmaQ[0]; var q := p.(karmaQ := p.karmaQ[1..]);
      var r := Set(q, h, q.all[h].(rkarma := 0));
      r.all[h].rdead == p.all[h].rdead &&
      Alike(if p.all[h].rdead then Burn(r, h) else r, PoolState.TakeNote(p))
  {
  }

  lemma IsOnKarmaList(p: Pool, h: nat)
    requires Ready(p) && h < |p.all|
    ensures Distinct(p.karmaQ) && (Due(p.all[h]) <==> h in p.karmaQ)
  {
  }

  /** What set_rkarma relies on; mainw calls it while a client is between the list and its flag. */
  ghost predicate Ready(p: Pool) {
    && 0 < |p.all| && 0 in p.table && p.table[0] == 0
    && Distinct(p.writeQ) && (0 in p.writeQ <==> p.all[0].queued)
    && Distinct(p.karmaQ) && (forall h: nat :: h in p.karmaQ <==> h < |p.all| && Due(p.all[h]))
  }

  lemma TidyReady(p: Pool)
    requires Tidy(p)
    ensures Ready(p)
  {
  }

  lemma ReadyControl(p: Pool)
    requires Ready(p)
    ensures 0 < |p.all| && 0 in p.table && p.table[0] == 0
  {
  }

  lemma PopReady(p: Pool)
    requires Tidy(p) && p.writeQ != [] && p.writeQ[0] != 0
    ensures Ready(Pop(p))
  {
    Popped(p.writeQ);
  }

  lemma SetReady(p: Pool, h: nat, c: Client)
    requires Ready(p) && h < |p.all| && c.queued == p.all[h].queued && Due(c) == Due(p.all[h])
    ensures Ready(Set(p, h, c))
  {
  }

  /** SetRkarma, case by case. */
  lemma Karmas(p: Pool, h: nat, rkarma: int)
    requires Ready(p) && h < |p.all|
    ensures var q := Set(p, h, p.all[h].(rkarma := rkarma));
      && q.karmaQ == p.karmaQ
      && (0 <= p.all[h].rkarma < ACK_THRESHOLD && (rkarma == -1 || ACK_THRESHOLD <= rkarma) ==>
            h !in p.karmaQ &&
            var r := q.(karmaQ := q.karmaQ + [h]);
            Distinct(r.writeQ) && (0 in r.writeQ <==> r.all[0].queued) &&
            r.writeQ == p.writeQ && r.table == p.table && |r.all| == |p.all| &&
            SetRkarma(p, h, rkarma) == (if p.karmaQ == [] then PushWriter(r, 0) else r))
      && (!(0 <= p.all[h].rkarma < ACK_THRESHOLD && (rkarma == -1 || ACK_THRESHOLD <= rkarma)) ==>
          SetRkarma(p, h, rkarma) == q)
  {
  }
}
