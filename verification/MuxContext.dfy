/**
 mux_context with the functions of tcpmux.c that run on it. Every method is proved to perform a run of
 the events of NodeState.
 */
module MuxContexts {
  import opened NetBytes
  import opened Packets
  import opened WireState
  import opened PoolState
  import opened NodeState
  import opened Traces
  import opened ClientLists
  import opened MainStreams

  /** What a system call on a socket came to. */
  datatype Transfer = Moved(amt: nat) | WouldBlock | Lost

  /**
   Fine is return 0. Rejected is return 1 on what the peer sent. Aborted is a failed assert(). Misled is
   a peer position that gives a debt the ring cannot pay, which tcpmux.c does not check.
   */
  datatype Status = Fine | Rejected | Aborted | Misled

  type Part = b: seq<byte> | |b| < 4

  /** What epoll_wait reports to muxloop; of the main connection also whether a connect has succeeded. */
  datatype Report =
    | Incoming
    | Tick
    | NewNetwork
    | ForClient(cd: ClientData, alive: bool, input: bool, output: bool)
    | ForMain(made: bool, input: bool, arrivals: seq<byte>, output: bool)

  /** Where mainw stops. */
  datatype Stop = Flushed | NoCredit | Waits | HungUp | Failed

  class MuxContext {
    const main: MainStream
    const clients: ClientPool
    /** The bytes of the peer position read so far on this connection. */
    var handshake: Part

    ghost var start: Node
    ghost var node: Node
    ghost var log: seq<Happening>
    /** How many system calls have been made on sockets, and what the last one came to. */
    ghost var asked: nat
    ghost var answer: Transfer

    /** The fields show a node that a run has led to. */
    ghost predicate Core()
      reads `start, `node, `log, main, main.stream, main.rin, main.wout, clients, clients.crew, clients.bufs
    {
      main.Is(node.wire) && clients.Is(node.pool) && Apart() && Leads(start, log, node)
    }

    ghost predicate Apart()
      reads clients`bufs
    {
      main.stream !in clients.bufs && main.rin !in clients.bufs && main.wout !in clients.bufs
    }

    /** What holds between any two statements that matter. */
    ghost predicate Steady()
      reads `start, `node, `log, main, main.stream, main.rin, main.wout, clients, clients.crew, clients.bufs
    {
      Core() && Healthy(node)
    }

    /** Between two calls, moreover, a packet in wout is not finished. */
    ghost predicate Valid()
      reads `start, `node, `log, main, main.stream, main.rin, main.wout, clients, clients.crew, clients.bufs
    {
      Steady() && (main.wbusy ==> main.wpos < main.wsz)
    }

    /** The run has led to an assert() of write_ack that fails. */
    ghost predicate Stuck()
      reads `start, `node, `log
    {
      Leads(start, log, node) && AckFails(node)
    }

    lemma Sticks()
      requires Leads(start, log, node) && AckFails(node)
      ensures Stuck()
    {
    }

    /** Nothing waits for the client's socket, or the client is not up. */
    ghost predicate Served(h: nat)
      reads `node
    {
      h < |node.pool.all| && var c := node.pool.all[h]; c.burned || !c.up || c.connecting || c.out == []
    }

    lemma Serves(h: nat)
      requires h < |node.pool.all|
      requires var c := node.pool.all[h]; c.burned || !c.up || c.connecting || c.out == []
      ensures Served(h)
    {
    }

    /** The handshake has been completed with the position in `bytes`. */
    ghost predicate Settled(before: seq<Happening>, streamPos: nat, bytes: seq<byte>)
      reads `log
    {
      |bytes| == 4 && !BadPosition(streamPos, bytes) && before + [Shakes(GetInt(bytes))] <= log
    }

    lemma SettledIs(before: seq<Happening>, streamPos: nat, bytes: seq<byte>)
      requires Settled(before, streamPos, bytes)
      ensures |bytes| == 4 && !BadPosition(streamPos, bytes) && before + [Shakes(GetInt(bytes))] <= log
    {
    }

    lemma Settles(before: seq<Happening>, streamPos: nat, bytes: seq<byte>)
      requires |bytes| == 4 && !BadPosition(streamPos, bytes) && before + [Shakes(GetInt(bytes))] <= log
      ensures Settled(before, streamPos, bytes)
    {
    }

    lemma Stands()
      requires main.Is(node.wire) && clients.Is(node.pool) && Apart() && Leads(start, log, node) && Healthy(node)
      ensures Steady()
    {
    }

    lemma Idles()
      requires Steady() && (main.wbusy ==> main.wpos < main.wsz)
      ensures Valid()
    {
    }

    lemma Stops()
      requires Valid()
      ensures Steady() && (main.wbusy ==> main.wpos < main.wsz)
    {
    }

    /** Core, from its parts and from Steady. */
    lemma Cores()
      requires main.Is(node.wire) && clients.Is(node.pool) && Apart() && Leads(start, log, node)
      ensures Core()
    {
    }

    lemma Stretch()
      requires Steady()
      ensures Core()
    {
    }

    lemma Separate()
      requires Apart()
      ensures main.stream !in clients.bufs && main.rin !in clients.bufs && main.wout !in clients.bufs
    {
    }

    lemma Holds()
      requires Steady()
      ensures main.Is(node.wire) && clients.Is(node.pool) && Apart() && Leads(start, log, node) && Healthy(node)
    {
    }

    /** make_context, around a stream and a pool as their constructors leave them. */
    constructor (main: MainStream, clients: ClientPool)
      requires main.stream.Length == GLOBAL_KARMA && main.rin.Length == MESSAGE && !main.wbusy
      requires main.Is(Fresh(main.stream[..], main.rin[..])) && clients.Is(FreshPool(clients.demux))
      requires main.stream !in clients.bufs && main.rin !in clients.bufs && main.wout !in clients.bufs
      ensures Valid() && this.main == main && this.clients == clients && log == []
      ensures start == FreshNode(clients.demux, main.stream[..], main.rin[..])
    {
      hide *;
      FreshIsSound(main.stream[..], main.rin[..]);
      FreshIsTidy(clients.demux);
      FreshHealthy(clients.demux, main.stream[..], main.rin[..]);
      LeadsHere(FreshNode(clients.demux, main.stream[..], main.rin[..]));
      this.main := main;
      this.clients := clients;
      handshake := [];
      start := FreshNode(clients.demux, main.stream[..], main.rin[..]);
      node := FreshNode(clients.demux, main.stream[..], main.rin[..]);
      log, asked, answer := [], 0, WouldBlock;
      new;
      Begins();
    }

    lemma Begins()
      requires main.Is(node.wire) && clients.Is(node.pool) && Leads(start, log, node) && Healthy(node) && !main.wbusy
      requires main.stream !in clients.bufs && main.rin !in clients.bufs && main.wout !in clients.bufs
      ensures Valid()
    {
    }

    ghost method Record(e: Event)
      requires Leads(start, log, node) && CanStep(node, e)
      modifies `node, `log
      ensures node == NodeState.Step(old(node), e) && log == old(log) + [Does(e)] && Leads(start, log, node)
    {
      hide *;
      Happens(node, e);
      Extended(start, log, node, Does(e), NodeState.Step(node, e));
      node, log := NodeState.Step(node, e), log + [Does(e)];
    }

    /** The main connection is lost or made. */
    ghost method Turn(h: Happening)
      requires Leads(start, log, node) && Healthy(node) && !h.Does? && CanHappen(node, h)
      modifies `node, `log
      ensures node == After(old(node), h) && log == old(log) + [h] && Leads(start, log, node) && Healthy(node)
    {
      hide *;
      AfterHealthy(node, h);
      GoesOn(node, h);
      Extended(start, log, node, h, After(node, h));
      node, log := After(node, h), log + [h];
    }

    /** An environment call that may take up to n bytes. */
    method Transfers(n: nat) returns (t: Transfer)
      requires n >= 1
      modifies `asked, `answer
      ensures t.Moved? ==> 1 <= t.amt <= n
      ensures asked == old(asked) + 1 && answer == t
    {
      var k: int := *;
      if 1 <= k <= n {
        t := Moved(k);
      } else if k == 0 {
        t := Lost;
      } else {
        t := WouldBlock;
      }
      asked, answer := asked + 1, t;
    }

    /** read() on a client's socket: whatever has arrived there. */
    method Reads(n: nat) returns (t: Transfer, bytes: seq<byte>)
      requires n >= 1
      modifies `asked, `answer
      ensures t.Moved? ==> 1 <= t.amt == |bytes| <= n
      ensures asked == old(asked) + 1 && answer == t
    {
      bytes := *;
      var lost: bool := *;
      t := if 1 <= |bytes| <= n then Moved(|bytes|) else if lost then Lost else WouldBlock;
      asked, answer := asked + 1, t;
    }

    /** mainw: write() has taken n bytes of the debt. */
    method Absolve(n: nat)
      requires Steady() && CanStep(node, Repays(n))
      modifies `node, `log, main`streamDebt
      ensures Steady() && start == old(start) && log == old(log) + [Does(Repays(n))]
      ensures node == NodeState.Step(old(node), Repays(n))
    {
      hide *;
      Holds();
      RepaysIs(node, n);
      StepHealthy(node, Repays(n));
      main.Absolve(n, node.wire);
      Record(Repays(n));
      Stands();
    }

    /** mainw has taken cd off the head of the write list. */
    ghost predicate InTurn(cd: ClientData)
      reads `start, `node, `log, main, main.stream, main.rin, main.wout, clients, clients.crew, clients.bufs
    {
      && node.pool.writeQ != [] && node.wire.conn.Ready? && node.wire.pending == []
      && main.Is(node.wire) && clients.Is(Pop(node.pool)) && Apart() && Leads(start, log, node) && Healthy(node)
      && cd in clients.crew && cd.num == node.pool.writeQ[0] < |node.pool.all|
    }

    lemma Turns(cd: ClientData)
      requires InTurn(cd)
      ensures main.Is(node.wire) && clients.Is(Pop(node.pool)) && Apart() && Leads(start, log, node) && Healthy(node)
      ensures node.pool.writeQ != [] && Tidy(node.pool) && cd in clients.crew &&
          cd.num == node.pool.writeQ[0] < |node.pool.all|
      ensures node.wire.conn.Ready? && node.wire.pending == []
      ensures Distinct(Pop(node.pool).writeQ) && cd.num !in Pop(node.pool).writeQ
      ensures Pop(node.pool).all == node.pool.all && Pop(node.pool).karmaQ == node.pool.karmaQ
    {
      hide Tidy, Sound, Leads, MainStream.Is, ClientPool.Is;
      TurnOf(node.pool);
    }

    /** mainw: a dead client is passed by. */
    method PassBy(cd: ClientData)
      requires InTurn(cd) && CanSkip(node.pool)
      modifies `node, `log, clients`writeHead, clients`writeTail, clients.crew
      ensures Steady() && start == old(start) && log == old(log) + [Does(Passes)]
      ensures CanStep(old(node), Passes) && node == NodeState.Step(old(node), Passes)
    {
      hide *;
      Turns(cd);
      CanPass(node);
      PassesIs(node);
      StepHealthy(node, Passes);
      clients.Requeue(cd, false, Pop(node.pool));
      Record(Passes);
      Stands();
    }

    /** mainw: write_mainfd has taken n bytes of the packet. */
    method Put(n: nat)
      requires Steady() && CanStep(node, Puts(n))
      modifies `node, `log, main`streamKarma, main`streamPos, main`wpos, main.stream
      ensures Steady() && start == old(start) && log == old(log) + [Does(Puts(n))]
      ensures node == NodeState.Step(old(node), Puts(n)) && main.wpos == old(main.wpos) + n
    {
      hide *;
      Holds();
      PutsIs(node, n);
      StepHealthy(node, Puts(n));
      Separate();
      main.WriteMainfd(n, node.wire);
      Record(Puts(n));
      Stands();
    }

    /** The client whose turn it is, taken off the write list. */
    method NextWriter() returns (cd: ClientData)
      requires Steady() && clients.writeHead != null && node.wire.conn.Ready? && node.wire.pending == []
      modifies clients`writeHead, clients.crew
      ensures InTurn(cd)
    {
      hide *;
      Holds();
      clients.Heads(node.pool);
      TidyQueues(node);
      cd := clients.UnlinkWriter(node.pool);
      Turned(cd);
    }

    lemma Turned(cd: ClientData)
      requires node.pool.writeQ != [] && node.wire.conn.Ready? && node.wire.pending == []
      requires main.Is(node.wire) && Apart() && Leads(start, log, node) && Healthy(node)
      requires clients.Is(node.pool.(writeQ := node.pool.writeQ[1..]))
      requires cd in clients.crew && cd.num == node.pool.writeQ[0] < |node.pool.all|
      ensures InTurn(cd)
    {
    }

    /** write_ack. It gives up where an assert() fails. */
    method WriteAck(cd: ClientData) returns (ok: bool)
      requires InTurn(cd) && cd.num == 0
      modifies `node, `log, main`wbusy, main`wpos, main`wsz, main`rstreamKarma, main.wout
      modifies clients`table, clients`writeHead, clients`writeTail, clients`karmaHead, clients.crew
      ensures ok <==> !AckFails(old(node))
      ensures ok ==>
          Steady() && start == old(start) && log == old(log) + [Does(Acks)] && main.wbusy &&
          main.wpos < main.wsz
      ensures ok ==> CanStep(old(node), Acks) && node == NodeState.Step(old(node), Acks)
      ensures !ok ==> node == old(node) && log == old(log)
    {
      hide *;
      Turns(cd);
      Acknowledges(node);
      var total := main.StreamAck(node.wire);
      if !(0 <= total <= GLOBAL_KARMA) {
        TotalBad(node);
        return false;
      }
      var notes: seq<Note> := [];
      ghost var r := node.pool;
      ghost var n := node;
      NotingStart(n.pool);
      ok := true;
      PopIs(r);
      clients.Heads(Pop(r));
      while clients.karmaHead != null && |notes| < MAX_NOTES
        invariant node == n && log == old(log) && start == old(start) && n.pool.writeQ != [] &&
            r.writeQ == n.pool.writeQ
        invariant main.Is(n.wire) && clients.Is(Pop(r)) && Noting(n.pool, r, notes)
        invariant clients.karmaHead == null <==> r.karmaQ == []
        invariant |notes| <= MAX_NOTES
        decreases MAX_NOTES - |notes|
      {
        NotingHead(node.pool, r, notes);
        clients.Heads(Pop(r));
        clients.Flags(clients.karmaHead, Pop(r));
        if !(clients.karmaHead.rkarma == -1 || ACK_THRESHOLD <= clients.karmaHead.rkarma <= CLIENT_KARMA) {
          NotingBad(node, r, notes);
          Bad(node);
          return false;
        }
        assert !clients.karmaHead.isRdead || clients.karmaHead.rkarma == -1;
        NotingStep(node.pool, r, notes);
        var id, karma := clients.TakeNote(Pop(r));
        r := TakeNote(r);
        notes := notes + [Note(id, karma)];
        PopIs(r);
        clients.Heads(Pop(r));
      }
      SendAck(cd, notes, r);
    }

    /** The end of write_ack: the packet is in wout; mainw queues the control client again if clients are left. */
    method SendAck(cd: ClientData, notes: seq<Note>, ghost r: Pool)
      requires main.Is(node.wire) && Apart() && Leads(start, log, node) && Healthy(node)
      requires node.wire.conn.Ready? && node.wire.pending == [] && 0 <= node.wire.rstreamKarma <= GLOBAL_KARMA
      requires r.writeQ != [] && clients.Is(Pop(r)) && Noting(node.pool, r, notes) && CanAcknowledge(node.pool)
      requires r.karmaQ == [] || |notes| == MAX_NOTES
      requires cd in clients.crew && cd.num == 0
      modifies `node, `log, main`wbusy, main`wpos, main`wsz, main`rstreamKarma, main.wout
      modifies clients`writeHead, clients`writeTail, clients.crew
      ensures !AckFails(old(node))
      ensures Steady() && start == old(start) && log == old(log) + [Does(Acks)] && main.wbusy && main.wpos < main.wsz
      ensures CanStep(old(node), Acks) && node == NodeState.Step(old(node), Acks)
    {
      hide *;
      PopIs(r);
      NotingQueue(node.pool, r, notes);
      NotingEnd(node, r, notes);
      AcksIs(node);
      StepHealthy(node, Acks);
      clients.Heads(Pop(r));
      clients.Requeue(cd, clients.karmaHead != null, Pop(r));
      var total := main.StreamAck(node.wire);
      Separate();
      main.ClosePacket(Ack(total, notes), node.wire);
      Record(Acks);
      Stands();
    }

    /** The reads from a client's socket for one packet. */
    method ReadClient(mxsz: int) returns (data: seq<byte>, end: End)
      requires 0 <= mxsz
      modifies `asked, `answer
      ensures if end.Filled? then |data| == mxsz else |data| < mxsz
      ensures old(asked) <= asked
      ensures !end.Filled? ==> old(asked) < asked && answer == if end.Broken? then Lost else WouldBlock
    {
      data, end := [], Filled;
      while |data| < mxsz
        invariant |data| <= mxsz && end.Filled? && old(asked) <= asked
        decreases mxsz - |data|
      {
        var t, bytes := Reads(mxsz - |data|);
        if !t.Moved? {
          return data, if t.Lost? then Broken else Blocked;
        }
        data := data + bytes;
      }
    }

    /** mainw: a payload from cd's socket, if there is one. */
    method Collect(cd: ClientData) returns (ghost data: seq<byte>, ghost end: End)
      requires InTurn(cd) && cd.num != 0 && cd.up && !cd.isBurned
      modifies `asked, `answer, `node, `log, main`wbusy, main`wpos, main`wsz, main`rstreamKarma, main.wout
      modifies clients`writeHead, clients`writeTail, clients`karmaHead, clients`karmaTail, clients.crew
      ensures Steady() && start == old(start) && log == old(log) + [Does(Gathers(data, end))]
      ensures CanStep(old(node), Gathers(data, end)) && node == NodeState.Step(old(node), Gathers(data, end))
      ensures if data == [] then main.wbusy == old(main.wbusy) else main.wbusy && main.wpos < main.wsz
      ensures old(asked) <= asked
      ensures !end.Filled? ==> old(asked) < asked && answer == if end.Broken? then Lost else WouldBlock
    {
      hide *;
      Turns(cd);
      clients.Flags(cd, Pop(node.pool));
      SaneAt(node.pool, cd.num);
      Positive(node.pool, cd.num);
      var mxsz := if VPACKETSIZE < cd.wkarma then VPACKETSIZE else cd.wkarma;
      var bytes, how := ReadClient(mxsz);
      data, end := bytes, how;
      CanGather(node, bytes, how);
      GathersIs(node, bytes, how);
      StepHealthy(node, Gathers(bytes, how));
      Separate();
      if bytes != [] {
        main.ClosePacket(Data(cd.id, bytes), node.wire);
      }
      clients.Collected(cd, bytes, how, node.pool);
      Record(Gathers(bytes, how));
      Stands();
    }

    /** disconnect_main. The mux side dials again at once, and may be connected at once. */
    method DisconnectMain()
      requires Steady()
      modifies `node, `log, `handshake, main`conn
      ensures Steady() && start == old(start) && old(log) <= log && Aside(old(node), node)
      ensures node == old(node).(wire := old(node).wire.(conn := node.wire.conn)) && !node.wire.conn.Ready?
    {
      hide *;
      Holds();
      ItBreaks(node);
      main.Becomes(Down, node.wire);
      Turn(Breaks);
      handshake := [];
      var connected: bool := *;
      if !clients.demux && connected {
        ghost var m := node;
        ItDials(m);
        main.Becomes(Dialing, node.wire);
        Turn(Dials);
        AsideOn(old(node), m, node);
      }
      Stands();
    }

    /** mainw, first part: what the peer has missed. */
    method PayDebt() returns (go: bool)
      requires Steady() && node.wire.conn.Ready?
      modifies `asked, `answer, `node, `log, `handshake, main`conn, main`streamDebt
      ensures Steady() && start == old(start) && old(log) <= log && Aside(old(node), node)
      ensures node.pool == old(node.pool) && node.wire.pending == old(node.wire.pending)
      ensures node.wire.streamKarma == old(node.wire.streamKarma)
      ensures go ==> node.wire.conn.Ready? && node.wire.debt == 0
      ensures old(asked) <= asked
      ensures !go ==> !node.wire.conn.Ready? || (old(asked) < asked && answer.WouldBlock?)
    {
      hide *;
      ghost var n := node;
      AsideHere(n);
      Holds();
      main.Shows(node.wire);
      while main.streamDebt > 0
        invariant Steady() && start == old(start) && old(log) <= log && old(asked) <= asked && Aside(n, node)
        invariant node.pool == n.pool && node.wire.pending == n.wire.pending &&
            node.wire.streamKarma == n.wire.streamKarma
        invariant node.wire.conn.Ready? && main.streamDebt == node.wire.debt
        decreases main.streamDebt
      {
        Holds();
        DebtInRange(node);
        var pos, sz := main.Arrears(node.wire);
        var t := Transfers(sz);
        if t.Lost? {
          ghost var m := node;
          DisconnectMain();
          AsideOn(n, m, node);
          return false;
        } else if t.WouldBlock? {
          return false;
        }
        ghost var m := node;
        CanAbsolve(m, t.amt);
        WritingAside(m, Repays(t.amt));
        OwesLess(m, t.amt);
        Absolve(t.amt);
        AsideOn(n, m, node);
        Holds();
        main.Shows(node.wire);
      }
      Holds();
      DebtInRange(node);
      go := true;
    }

    /**
     mainw, second part: a packet is composed. `go` says that there is one; otherwise nobody has anything
     to write, or an assert() of write_ack failed.
     */
    method ComposePacket() returns (go: bool, failed: bool)
      requires Valid() && node.wire.conn.Ready?
      modifies `asked, `answer, `node, `log, main`wbusy, main`wpos, main`wsz, main`rstreamKarma, main.wout
      modifies clients`table, clients`writeHead, clients`writeTail, clients`karmaHead, clients`karmaTail, clients.crew
      ensures failed ==> !go
      ensures !failed ==> Valid() && start == old(start) && old(log) <= log && Aside(old(node), node)
      ensures !failed ==> node.wire.conn.Ready? && node.wire.debt == old(node.wire.debt)
      ensures !failed ==> node.wire.streamKarma == old(node.wire.streamKarma)
      ensures go ==> main.wbusy
      ensures !failed && !go ==> node.pool.writeQ == [] && node.wire.pending == []
      ensures old(asked) <= asked
      ensures failed ==> Stuck() && old(log) <= log
    {
      hide *;
      ghost var n := node;
      AsideHere(n);
      Stops();
      while !main.wbusy
        invariant Steady() && (main.wbusy ==> main.wpos < main.wsz)
        invariant start == old(start) && old(log) <= log && old(asked) <= asked && Aside(n, node)
        invariant node.wire.conn.Ready? && node.wire.debt == n.wire.debt && node.wire.streamKarma == n.wire.streamKarma
        decreases !main.wbusy, Others(node.pool.writeQ)
      {
        Holds();
        main.Shows(node.wire);
        clients.Heads(node.pool);
        if clients.writeHead == null {
          Idles();
          return false, false;
        }
        ghost var m := node;
        var cd := NextWriter();
        Turns(cd);
        clients.Flags(cd, Pop(node.pool));
        Positive(node.pool, cd.num);
        if cd.id != 0 && (cd.isBurned || !cd.up) {
          Skips(m);
          PassBy(cd);
          WritingAside(m, Passes);
          ComposesOnly(m, Passes);
          EmptyTurn(m, Passes);
        } else if cd.id == 0 {
          var ok := WriteAck(cd);
          if !ok {
            Sticks();
            return false, true;
          }
          WritingAside(m, Acks);
          ComposesOnly(m, Acks);
        } else {
          ghost var data, end := Collect(cd);
          WritingAside(m, Gathers(data, end));
          ComposesOnly(m, Gathers(data, end));
          if data == [] {
            EmptyTurn(m, Gathers(data, end));
          }
        }
        AsideOn(n, m, node);
      }
      Idles();
      go, failed := true, false;
    }

    method DumpSome(numb: nat) returns (t: Transfer)
      requires Steady() && node.wire.conn.Ready? && node.wire.debt == 0 && main.wbusy
      requires 1 <= numb <= |node.wire.pending| && numb <= node.wire.streamKarma
      modifies `asked, `answer, `node, `log, `handshake, main`conn, main`streamKarma, main`streamPos, main`wpos,
          main.stream
      ensures Steady() && start == old(start) && old(log) <= log && Aside(old(node), node) &&
          node.pool == old(node.pool)
      ensures node.wire.debt == 0 && (node.wire.conn.Ready? <==> !t.Lost?)
      ensures t.Moved? ==> 1 <= t.amt <= numb && main.wpos == old(main.wpos) + t.amt
      ensures t.Moved? ==> node.wire.streamKarma == old(node.wire.streamKarma) - t.amt
      ensures !t.Moved? ==> main.wpos == old(main.wpos) && node.wire.streamKarma == old(node.wire.streamKarma)
      ensures old(asked) <= asked
      ensures t.WouldBlock? ==> old(asked) < asked && answer.WouldBlock?
    {
      hide *;
      t := Transfers(numb);
      AsideHere(node);
      if t.Lost? {
        DisconnectMain();
      } else if t.Moved? {
        Holds();
        CanWrite(node, t.amt);
        WritingAside(node, Puts(t.amt));
        WritesLess(node, t.amt);
        Put(t.amt);
      }
    }

    /** mainw, third part: the packet in wout is written as far as credit and the socket allow. */
    method DumpPacket() returns (go: bool, ghost stop: Stop)
      requires Valid() && node.wire.conn.Ready? && node.wire.debt == 0 && main.wbusy
      modifies `asked, `answer, `node, `log, `handshake, main`conn, main`streamKarma, main`streamPos, main`wpos,
          main`wbusy, main.stream
      ensures Valid() && start == old(start) && old(log) <= log && Aside(old(node), node)
      ensures node.pool == old(node.pool) && node.wire.debt == 0
      ensures go ==> !main.wbusy && node.wire.pending == [] && node.wire.conn.Ready?
      ensures go ==> node.wire.streamKarma < old(node.wire.streamKarma)
      ensures !go ==> !stop.Flushed? && !stop.Failed?
      ensures !go && stop.NoCredit? ==> node.wire.streamKarma == 0 && node.wire.pending != []
      ensures !go && stop.HungUp? ==> !node.wire.conn.Ready?
      ensures old(asked) <= asked
      ensures !go && stop.Waits? ==> old(asked) < asked && answer.WouldBlock?
    {
      hide *;
      ghost var n := node;
      AsideHere(n);
      Stops();
      Holds();
      main.Shows(node.wire);
      while main.wpos < main.wsz
        invariant Steady() && main.wbusy && main.wpos <= main.wsz
        invariant start == old(start) && old(log) <= log && old(asked) <= asked && Aside(n, node) && node.pool == n.pool
        invariant node.wire.conn.Ready? && node.wire.debt == 0
        invariant node.wire.streamKarma <= n.wire.streamKarma
        invariant main.wpos == main.wsz ==> node.wire.streamKarma < n.wire.streamKarma
        decreases main.wsz - main.wpos
      {
        Holds();
        main.Shows(node.wire);
        DebtInRange(node);
        var numb := main.streamKarma;
        if numb == 0 {
          Idles();
          return false, NoCredit;
        }
        numb := if main.wsz - main.wpos < numb then main.wsz - main.wpos else numb;
        ghost var m := node;
        var t := DumpSome(numb);
        AsideOn(n, m, node);
        if !t.Moved? {
          Idles();
          stop := if t.Lost? then HungUp else Waits;
          return false, stop;
        }
      }
      Holds();
      main.Finish(node.wire);
      main.Shows(node.wire);
      Stands();
      Idles();
      go, stop := true, Waits;
    }

    /** Why mainw returns. */
    ghost predicate Stopped(before: Node, calls: nat, stop: Stop)
      reads `node, `asked, `answer
    {
      match stop
      case Flushed =>
          && before.wire.conn.Ready?
          && node.pool.writeQ == [] && node.wire.debt == 0 && node.wire.conn.Ready?
          && (node.wire.pending == [] || node == before)
      case NoCredit => node.wire.streamKarma == 0 && node.wire.pending != []
      case HungUp => !node.wire.conn.Ready?
      case Waits => calls < asked && answer.WouldBlock?
      case Failed => false
    }

    /** One turn of mainw's loop; it is the last one unless `go`. */
    method Round() returns (go: bool, failed: bool, ghost stop: Stop)
      requires Valid() && node.wire.conn.Ready? && (node.pool.writeQ != [] || node.wire.debt > 0)
      modifies `asked, `answer, `node, `log, `handshake, main, main.stream, main.wout
      modifies clients`table, clients`writeHead, clients`writeTail, clients`karmaHead, clients`karmaTail, clients.crew
      ensures !failed ==> Valid() && start == old(start) && old(log) <= log && Aside(old(node), node)
      ensures go ==> !failed && node.wire.conn.Ready? && node.wire.debt == 0 && node.wire.pending == []
      ensures go ==> node.wire.streamKarma < old(node.wire.streamKarma)
      ensures !go && !failed ==> Stopped(old(node), old(asked), stop)
      ensures !go && !failed && stop.Flushed? ==> node.wire.pending == []
      ensures old(asked) <= asked
      ensures failed ==> Stuck() && old(log) <= log
    {
      hide *;
      ghost var n := node;
      Stops();
      go := PayDebt();
      failed := false;
      Idles();
      if !go {
        stop := if node.wire.conn.Ready? then Waits else HungUp;
        AtRest(n, old(asked));
        return;
      }
      ghost var m := node;
      go, failed := ComposePacket();
      if failed {
        return go, true, Failed;
      }
      AsideOn(n, m, node);
      if !go {
        AllWritten(n, old(asked));
        return false, false, Flushed;
      }
      m := node;
      go, stop := DumpPacket();
      AsideOn(n, m, node);
      if !go {
        AtRest(n, old(asked));
      }
    }

    /** mainw. */
    method MainW() returns (failed: bool, ghost stop: Stop)
      requires Valid()
      modifies `asked, `answer, `node, `log, `handshake, main, main.stream, main.wout
      modifies clients`table, clients`writeHead, clients`writeTail, clients`karmaHead, clients`karmaTail, clients.crew
      ensures !failed ==> Valid() && start == old(start) && old(log) <= log && Aside(old(node), node)
      ensures !failed ==> Stopped(old(node), old(asked), stop)
      ensures old(node.wire.conn.Ready? && node.pool.writeQ == [] && node.wire.debt == 0) ==>
          !failed && stop.Flushed? && node == old(node)
      ensures !failed && stop.Flushed? ==> (node.wire.pending != [] <==> HalfWritten(old(node)))
      ensures old(asked) <= asked
      ensures failed ==> Stuck() && old(log) <= log
    {
      hide *;
      ghost var n := node;
      AsideHere(n);
      HalfIs(n);
      Stops();
      Holds();
      main.Shows(node.wire);
      if !main.conn.Ready? {
        AtRest(n, old(asked));
        return false, HungUp;
      }
      clients.Heads(node.pool);
      DebtInRange(node);
      while clients.writeHead != null || main.streamDebt > 0
        invariant Valid() && start == old(start) && old(log) <= log && old(asked) <= asked && Aside(n, node)
        invariant node.wire.conn.Ready? && 0 <= node.wire.streamKarma && 0 <= main.streamDebt == node.wire.debt
        invariant clients.writeHead == null <==> node.pool.writeQ == []
        invariant node == n || node.wire.pending == []
        invariant n.pool.writeQ == [] && n.wire.debt == 0 ==> node == n
        decreases node.wire.streamKarma
      {
        ghost var m, late := node, asked;
        var go;
        go, failed, stop := Round();
        if failed {
          return true, Failed;
        }
        AsideOn(n, m, node);
        if !go {
          Restops(m, n, late, old(asked), stop);
          return false, stop;
        }
        Stops();
        Holds();
        main.Shows(node.wire);
        clients.Heads(node.pool);
        DebtInRange(node);
      }
      AllWritten(n, old(asked));
      return false, Flushed;
    }

    lemma AtRest(n: Node, calls: nat)
      ensures !node.wire.conn.Ready? ==> Stopped(n, calls, HungUp)
      ensures node.wire.streamKarma == 0 && node.wire.pending != [] ==> Stopped(n, calls, NoCredit)
      ensures calls < asked && answer.WouldBlock? ==> Stopped(n, calls, Waits)
    {
    }

    lemma Restops(m: Node, n: Node, late: nat, calls: nat, stop: Stop)
      requires Stopped(m, late, stop) && calls <= late && (stop.Flushed? ==> node.wire.pending == []) &&
          n.wire.conn.Ready?
      ensures Stopped(n, calls, stop)
    {
    }

    lemma AllWritten(n: Node, calls: nat)
      requires node.pool.writeQ == [] && node.wire.debt == 0 && node.wire.conn.Ready? && n.wire.conn.Ready?
      requires node.wire.pending == [] || node == n
      ensures Stopped(n, calls, Flushed)
    {
    }

    /* ---- what the rest of the program does to clients ---- */

    /** push_writer, not from mainw. */
    method PushWriter(cd: ClientData) returns (failed: bool)
      requires Valid() && cd in clients.crew
      modifies `asked, `answer, `node, `log, `handshake, main, main.stream, main.wout
      modifies clients`table, clients`writeHead, clients`writeTail, clients`karmaHead, clients`karmaTail, clients.crew
      ensures !failed ==> Valid() && start == old(start) && old(log) + [Does(Acts(Push(cd.num)))] <= log
      ensures !failed ==>
          cd.num < |old(node).pool.all| &&
          Aside(old(node).(pool := PoolState.PushWriter(old(node).pool, cd.num)), node)
      ensures !failed ==> SameReading(old(node), node)
      ensures old(asked) <= asked
      ensures failed ==> Stuck() && old(log) <= log
    {
      hide *;
      Stops();
      Holds();
      clients.Flags(cd, node.pool);
      PushIs(node, cd.num);
      StepHealthy(node, Acts(Push(cd.num)));
      TidyReadyHere(node);
      var wake := clients.PushWriter(cd, node.pool);
      Record(Acts(Push(cd.num)));
      Stands();
      Idles();
      failed := Wakes(wake);
      if !failed {
        ReadsOn(old(node), Acts(Push(cd.num)), node);
      }
    }

    /** The try at mainw behind push_writer. */
    method Wakes(wake: bool) returns (failed: bool)
      requires Valid()
      modifies `asked, `answer, `node, `log, `handshake, main, main.stream, main.wout
      modifies clients`table, clients`writeHead, clients`writeTail, clients`karmaHead, clients`karmaTail, clients.crew
      ensures !failed ==> Valid() && start == old(start) && old(log) <= log && Aside(old(node), node)
      ensures !wake ==> !failed && node == old(node)
      ensures old(asked) <= asked
      ensures failed ==> Stuck() && old(log) <= log
    {
      hide *;
      AsideHere(node);
      failed := false;
      if wake {
        ghost var stop;
        failed, stop := MainW();
      }
    }

    /** disconnect_client, not from mainw. */
    method DisconnectClient(cd: ClientData) returns (failed: bool)
      requires Valid() && cd in clients.crew && cd.num != 0 && cd.up
      modifies `asked, `answer, `node, `log, `handshake, main, main.stream, main.wout
      modifies clients`table, clients`writeHead, clients`writeTail, clients`karmaHead, clients`karmaTail, clients.crew
      ensures !failed ==> Valid() && start == old(start) && old(log) + [Does(Acts(Drop(cd.num)))] <= log
      ensures !failed ==>
          cd.num < |old(node).pool.all| &&
          Aside(old(node).(pool := Disconnect(old(node).pool, cd.num)), node)
      ensures !failed ==> SameReading(old(node), node)
      ensures old(asked) <= asked
      ensures failed ==> Stuck() && old(log) <= log
    {
      hide *;
      Stops();
      Holds();
      clients.Flags(cd, node.pool);
      DropIs(node, cd.num);
      StepHealthy(node, Acts(Drop(cd.num)));
      TidyReadyHere(node);
      TidyReady(node.pool);
      var wake := clients.DisconnectClient(cd, node.pool);
      Record(Acts(Drop(cd.num)));
      Stands();
      Idles();
      failed := Wakes(wake);
      if !failed {
        ReadsOn(old(node), Acts(Drop(cd.num)), node);
      }
    }

    /** clientr. */
    method ClientR(cd: ClientData) returns (failed: bool)
      requires Valid() && cd in clients.crew
      modifies `asked, `answer, `node, `log, `handshake, main, main.stream, main.wout
      modifies clients`table, clients`writeHead, clients`writeTail, clients`karmaHead, clients`karmaTail, clients.crew
      ensures !failed ==> Valid() && start == old(start) && old(log) <= log
      ensures old(asked) <= asked
      ensures failed ==> Stuck() && old(log) <= log
      ensures !failed ==> if old(cd.isBurned || !cd.up || cd.isConnecting) then log == old(log)
          else old(log) + [Does(Acts(Push(cd.num)))] <= log
      ensures !failed ==> SameReading(old(node), node)
    {
      hide *;
      ReadingHere(node);
      if cd.isBurned || !cd.up || cd.isConnecting {
        return false;
      }
      failed := PushWriter(cd);
    }

    /** clientw: what waits for cd's socket is written as far as the socket takes it. */
    method ClientW(cd: ClientData) returns (failed: bool)
      requires Valid() && cd in clients.crew && cd.num != 0
      modifies `asked, `answer, `node, `log, `handshake, main, main.stream, main.wout
      modifies clients`table, clients`writeHead, clients`writeTail, clients`karmaHead, clients`karmaTail, clients.crew
      ensures !failed ==> Valid() && start == old(start) && old(log) <= log && SameReading(old(node), node)
      ensures old(asked) <= asked
      ensures failed ==> Stuck() && old(log) <= log
      ensures !failed ==> Served(cd.num) || (old(asked) < asked && answer.WouldBlock?)
    {
      hide *;
      Stops();
      Holds();
      clients.Flags(cd, node.pool);
      ReadingHere(node);
      failed := false;
      if cd.isBurned || !cd.up || cd.isConnecting {
        Serves(cd.num);
        return;
      }
      ghost var n := node;
      clients.Waiting(cd, node.pool);
      while cd.outSz != 0
        invariant Valid() && start == old(start) && old(log) <= log && old(asked) <= asked && SameReading(n, node)
        invariant cd.num < |node.pool.all| && node.pool.all[cd.num].up && !node.pool.all[cd.num].burned
        invariant !node.pool.all[cd.num].connecting && cd.outSz == |node.pool.all[cd.num].out|
        decreases cd.outSz
      {
        Stops();
        Holds();
        clients.Waiting(cd, node.pool);
        clients.Flags(cd, node.pool);
        var sz := CLIENT_KARMA - cd.outPos;
        sz := if cd.outSz < sz then cd.outSz else sz;
        var t := Transfers(sz);
        ghost var m := node;
        if t.Lost? {
          failed := DisconnectClient(cd);
          if !failed {
            HangsUp(m, node, cd.num);
            ReadingOn(n, m, node);
            Serves(cd.num);
          }
          return;
        } else if t.WouldBlock? {
          return;
        }
        MayDeliver(node.pool, cd.num, t.amt);
        failed := Deliver(cd, t.amt);
        if failed {
          return;
        }
        ReadingOn(n, m, node);
        Stops();
        Holds();
        clients.Waiting(cd, node.pool);
      }
      Serves(cd.num);
    }

    /** One turn of that loop. */
    method Deliver(cd: ClientData, amt: nat) returns (failed: bool)
      requires Valid() && cd in clients.crew && cd.num != 0 && CanDeliver(node.pool, cd.num, amt)
      modifies `asked, `answer, `node, `log, `handshake, main, main.stream, main.wout
      modifies clients`table, clients`writeHead, clients`writeTail, clients`karmaHead, clients`karmaTail, clients.crew
      ensures !failed ==> Valid() && start == old(start) && old(log) + [Does(Acts(Flush(cd.num, amt)))] <= log
      ensures !failed ==> SameReading(old(node), node)
      ensures !failed ==> cd.num < |node.pool.all| == |old(node.pool).all|
      ensures !failed ==> var c := node.pool.all[cd.num];
        c.up && !c.burned && !c.connecting && c.out == old(node).pool.all[cd.num].out[amt..]
      ensures old(asked) <= asked
      ensures failed ==> Stuck() && old(log) <= log
    {
      hide *;
      Stops();
      Holds();
      FlushIs(node, cd.num, amt);
      StepHealthy(node, Acts(Flush(cd.num, amt)));
      TidyReadyHere(node);
      ghost var n := node;
      var wake := clients.Delivered(cd, amt, node.pool);
      Record(Acts(Flush(cd.num, amt)));
      Stands();
      Idles();
      ghost var m := node;
      failed := Wakes(wake);
      if !failed {
        Stops();
        Holds();
        StillUp(n, m, node, cd.num, amt);
      }
    }

    /* ---- mainr ---- */

    /** get_client for the next item. */
    method GetClient(id: int) returns (cd: ClientData?, failed: bool)
      requires Valid() && node.inbox != [] && node.inbox[0].id == id && id != 0
      modifies `asked, `answer, `node, `log, `handshake, main, main.stream, main.wout, clients, clients.crew
      ensures fresh(clients.crew - old(clients.crew)) && fresh(clients.bufs - old(clients.bufs))
      ensures !failed ==> Valid() && start == old(start) && old(log) <= log && SameReading(old(node), node)
      ensures !failed && cd == null ==> Unknown(node)
      ensures !failed && cd != null ==>
          0 < id && cd in clients.crew && id in node.pool.table &&
          cd.num == node.pool.table[id]
      ensures old(asked) <= asked
      ensures failed ==> Stuck() && old(log) <= log
    {
      hide *;
      ReadingHere(node);
      cd, failed := null, false;
      NobodyThere(node);
      Stops();
      Holds();
      clients.Looks(id, node.pool);
      if id < 0 || id >= MAX_CLIENTS {
        return;
      }
      if id in clients.table {
        cd := clients.table[id];
        return;
      }
      if !clients.demux {
        return;
      }
      var met;
      met, failed := Meet(id);
      cd := met;
    }

    /** get_client on the demux side for an id it does not know. */
    method Meet(id: int) returns (cd: ClientData, failed: bool)
      requires Valid() && node.inbox != [] && node.inbox[0].id == id
      requires node.pool.demux && 0 < id < MAX_CLIENTS && id !in node.pool.table
      modifies `asked, `answer, `node, `log, `handshake, main, main.stream, main.wout, clients, clients.crew
      ensures fresh(clients.crew - old(clients.crew)) && fresh(clients.bufs - old(clients.bufs))
      ensures !failed ==> Valid() && start == old(start) && old(log) <= log && SameReading(old(node), node)
      ensures !failed ==> cd in clients.crew && id in node.pool.table && cd.num == node.pool.table[id]
      ensures old(asked) <= asked
      ensures failed ==> Stuck() && old(log) <= log
    {
      hide *;
      Stops();
      Holds();
      ghost var n := node;
      var wake;
      ghost var outcome;
      cd, wake, outcome := Allocate(id);
      failed := Wakes(wake);
      if !failed {
        Stops();
        Holds();
        Introduces(n, node, id, outcome);
      }
    }

    /** Up to the notice of a client whose connect is refused. */
    method Allocate(id: int) returns (cd: ClientData, wake: bool, ghost outcome: Outcome)
      requires Valid() && node.inbox != [] && node.inbox[0].id == id
      requires node.pool.demux && 0 < id < MAX_CLIENTS && id !in node.pool.table
      modifies `node, `log, clients, clients.crew
      ensures fresh(clients.crew - old(clients.crew)) && fresh(clients.bufs - old(clients.bufs))
      ensures Valid() && start == old(start) && log == old(log) + [Does(Meets(outcome))]
      ensures 0 < |old(node).pool.all| && cd in clients.crew && cd.num == |old(node).pool.all|
      ensures node == old(node).(pool := Introduce(old(node).pool, id, outcome))
    {
      hide *;
      Stops();
      Holds();
      var o: Outcome := *;
      outcome := o;
      MeetsIs(node, o);
      StepHealthy(node, Meets(o));
      TidyReadyHere(node);
      TidyReady(node.pool);
      ReadyControl(node.pool);
      cd, wake := clients.Introduced(id, o, node.pool);
      Record(Meets(o));
      Stands();
      Idles();
    }

    /** read_ack: one pair, for a client that has been found. */
    method TakeCredit(cd: ClientData, karma: int) returns (failed: bool)
      requires Valid() && node.inbox != [] && node.inbox[0] == Credit(node.inbox[0].id, karma) && 0 < node.inbox[0].id
      requires cd in clients.crew && node.inbox[0].id in node.pool.table && cd.num == node.pool.table[node.inbox[0].id]
      modifies `asked, `answer, `node, `log, `handshake, main, main.stream, main.wout
      modifies clients`table, clients`writeHead, clients`writeTail, clients`karmaHead, clients`karmaTail, clients.crew
      ensures !failed ==> Valid() && start == old(start) && old(log) + [Does(Takes)] <= log
      ensures !failed ==> node.inbox == old(node).inbox[1..] && SameStream(old(node), node)
      ensures old(asked) <= asked
      ensures failed ==> Stuck() && old(log) <= log
    {
      hide *;
      Stops();
      Holds();
      ghost var n := node;
      Credits(n);
      StepHealthy(n, Takes);
      TidyReadyHere(n);
      var wake := clients.Credited(cd, karma, n.pool);
      Record(Takes);
      Stands();
      Idles();
      ghost var m := node;
      failed := Wakes(wake);
      if !failed {
        AsideReads(m, node);
        ReadingStream(m, node);
        StreamOn(n, m, node);
      }
    }

    /** read_ack, behind its check of the global karma. */
    method ReadAck(notes: seq<Note>) returns (status: Status)
      requires Valid() && node.inbox == NoteItems(notes)
      modifies `asked, `answer, `node, `log, `handshake, main, main.stream, main.wout, clients, clients.crew
      ensures fresh(clients.crew - old(clients.crew)) && fresh(clients.bufs - old(clients.bufs))
      ensures !status.Aborted? ==> Steady() && !status.Misled? && start == old(start) && old(log) <= log
      ensures status.Rejected? ==> Fails(node)
      ensures status.Fine? ==> Valid() && node.inbox == [] && SameStream(old(node), node)
      ensures old(asked) <= asked
      ensures status.Aborted? ==> Stuck() && old(log) <= log
    {
      hide *;
      ghost var n := node;
      StreamHere(n, n);
      var i := 0;
      while i < |notes|
        invariant 0 <= i <= |notes| && Valid() && start == old(start) && old(log) <= log && old(asked) <= asked
        invariant node.inbox == NoteItems(notes)[i..] && SameStream(n, node)
        invariant fresh(clients.crew - old(clients.crew)) && fresh(clients.bufs - old(clients.bufs))
      {
        var id, karma := notes[i].id, notes[i].karma;
        NextNote(notes, i);
        if id == 0 {
          StrayItem(node);
          Stops();
          return Rejected;
        }
        ghost var m := node;
        var cd, failed := GetClient(id);
        if failed {
          return Aborted;
        }
        ReadingStream(m, node);
        StreamOn(n, m, node);
        m := node;
        if cd == null {
          Ignore();
        } else {
          failed := TakeCredit(cd, karma);
          if failed {
            return Aborted;
          }
        }
        StreamOn(n, m, node);
        i := i + 1;
      }
      Stops();
      status := Fine;
    }

    /** A pair for a client that is not there is passed by. */
    ghost method Ignore()
      requires Valid() && node.inbox != [] && node.inbox[0].Credit? && Unknown(node)
      modifies `node, `log
      ensures Valid() && start == old(start) && log == old(log) + [Does(Ignores)]
      ensures node.inbox == old(node).inbox[1..] && SameStream(old(node), node)
    {
      hide *;
      Stops();
      Holds();
      IgnoresIs(node);
      StepHealthy(node, Ignores);
      StreamHere(node, NodeState.Step(node, Ignores));
      Record(Ignores);
      Stands();
      Idles();
    }

    /** mainr: a payload for a client that has been found. */
    method TakePayload(cd: ClientData, data: seq<byte>) returns (status: Status)
      requires Valid() && node.inbox != [] && node.inbox == [Payload(node.inbox[0].id, data)] && 0 < node.inbox[0].id
      requires cd in clients.crew && node.inbox[0].id in node.pool.table && cd.num == node.pool.table[node.inbox[0].id]
      modifies `asked, `answer, `node, `log, `handshake, main, main.stream, main.wout
      modifies clients`table, clients`writeHead, clients`writeTail, clients`karmaHead, clients`karmaTail
      modifies clients.crew, clients.bufs
      ensures !status.Aborted? ==> Steady() && !status.Misled? && start == old(start) && old(log) <= log
      ensures status.Rejected? ==> Fails(node)
      ensures status.Fine? ==> Valid() && node.inbox == [] && SameStream(old(node), node)
      ensures old(asked) <= asked
      ensures status.Aborted? ==> Stuck() && old(log) <= log
    {
      hide *;
      Stops();
      Holds();
      ghost var n := node;
      Payloads(n);
      clients.Waiting(cd, n.pool);
      if CLIENT_KARMA - cd.outSz < |data| {
        return Rejected;
      }
      StepHealthy(n, Takes);
      Separate();
      clients.Has(cd, n.pool);
      clients.Receive(cd, data, n.pool);
      Record(Takes);
      Stands();
      Idles();
      ghost var m := node;
      var failed := ClientW(cd);
      if failed {
        return Aborted;
      }
      ReadingStream(m, node);
      StreamOn(n, m, node);
      Stops();
      status := Fine;
    }

    /** mainr: a whole data packet. */
    method ProcessData(id: int, data: seq<byte>) returns (status: Status)
      requires Valid() && node.inbox == [Payload(id, data)]
      modifies `asked, `answer, `node, `log, `handshake, main, main.stream, main.wout, clients, clients.crew,
          clients.bufs
      ensures fresh(clients.crew - old(clients.crew)) && fresh(clients.bufs - old(clients.bufs))
      ensures !status.Aborted? ==> Steady() && !status.Misled? && start == old(start) && old(log) <= log
      ensures status.Rejected? ==> Fails(node)
      ensures status.Fine? ==> Valid() && node.inbox == [] && SameStream(old(node), node)
      ensures old(asked) <= asked
      ensures status.Aborted? ==> Stuck() && old(log) <= log
    {
      hide *;
      ghost var m := node;
      Stops();
      if id == 0 {
        StrayItem(node);
        return Rejected;
      }
      var cd, failed := GetClient(id);
      if failed {
        return Aborted;
      }
      Stops();
      ReadingStream(m, node);
      if cd == null {
        Nobody(node);
        return Rejected;
      }
      ghost var o := node;
      status := TakePayload(cd, data);
      if status.Fine? {
        StreamOn(m, o, node);
      }
    }

    /** mainr: a whole packet is in rin. */
    method Process() returns (status: Status)
      requires Valid() && node.inbox == [] && Complete(node.wire)
      modifies `asked, `answer, `node, `log, `handshake, main, main.stream, main.wout, clients, clients.crew,
          clients.bufs
      ensures fresh(clients.crew - old(clients.crew)) && fresh(clients.bufs - old(clients.bufs))
      ensures !status.Aborted? ==> Core() && !status.Misled? && start == old(start) && old(log) + [Does(Opens)] <= log
      ensures status.Rejected? ==> Fails(node)
      ensures status.Fine? ==>
          Valid() && node.inbox == [] && node.wire.rpos == 0 &&
          node.wire.heard == old(node.wire.heard)
      ensures old(asked) <= asked
      ensures status.Aborted? ==> Stuck() && old(log) <= log
    {
      hide *;
      OpensIs(node);
      Opening(node);
      var p, ok := TakeOut();
      if !ok {
        return Rejected;
      }
      ghost var m := node;
      if p.Ack? {
        status := ReadAck(p.notes);
      } else {
        status := ProcessData(p.id, p.payload);
      }
      if status.Fine? {
        Rested(m, node);
      }
      if !status.Aborted? {
        Stretch();
      }
    }

    /** The packet in rin, and what read_ack says to the credit it gives. */
    method TakeOut() returns (p: Packet, ok: bool)
      requires Valid() && node.inbox == [] && Complete(node.wire) && CanStep(node, Opens)
      modifies `node, `log, main
      ensures p == Decode(old(node).wire.rin) && node == NodeState.Step(old(node), Opens)
      ensures Core() && start == old(start) && log == old(log) + [Does(Opens)]
      ensures if ok then Valid() else Fails(node)
    {
      hide *;
      Stops();
      Holds();
      ghost var n := node;
      OpensIs(n);
      Separate();
      p := main.OpenPacket(n.wire);
      Record(Opens);
      main.Shows(node.wire);
      Opening(n);
      Cores();
      ok := 0 <= main.streamKarma <= GLOBAL_KARMA;
      if ok {
        StepHealthy(n, Opens);
        Stands();
        Idles();
      }
    }

    /** mainr: bs, which read() has put into rin, and the acknowledgment it may call for. */
    method ReadSome(bs: seq<byte>) returns (failed: bool)
      requires Valid() && node.inbox == [] && CanGet(node.wire, bs)
      modifies `asked, `answer, `node, `log, `handshake, main, main.stream, main.rin, main.wout
      modifies clients`table, clients`writeHead, clients`writeTail, clients`karmaHead, clients`karmaTail, clients.crew
      ensures !failed ==> Valid() && start == old(start) && old(log) + [Does(Gets(bs))] <= log && node.inbox == []
      ensures !failed ==> node.wire.heard == old(node.wire.heard) + bs
      ensures !failed ==> var w := Get(old(node.wire), bs); node.wire.rin == w.rin && node.wire.rpos == w.rpos
      ensures old(asked) <= asked
      ensures failed ==> Stuck() && old(log) <= log
    {
      hide *;
      Stops();
      Holds();
      GetsIs(node, bs);
      GetCounts(node.wire, bs);
      var wake := GetSome(bs);
      ghost var m := node;
      failed := Wakes(wake);
      if !failed {
        AsideReads(m, node);
        ReadingStream(m, node);
        Rested(m, node);
      }
    }

    /** Up to the acknowledgment. */
    method GetSome(bs: seq<byte>) returns (wake: bool)
      requires Valid() && node.inbox == [] && CanGet(node.wire, bs) && CanStep(node, Gets(bs))
      modifies `node, `log, main, main.rin
      modifies clients`table, clients`writeHead, clients`writeTail, clients`karmaHead, clients`karmaTail, clients.crew
      ensures Valid() && start == old(start) && log == old(log) + [Does(Gets(bs))]
      ensures node == NodeState.Step(old(node), Gets(bs))
    {
      hide *;
      Stops();
      Holds();
      ghost var n := node;
      GetsIs(n, bs);
      StepHealthy(n, Gets(bs));
      TidyReadyHere(n);
      TidyReady(n.pool);
      ReadyControl(n.pool);
      GetCounts(n.wire, bs);
      Separate();
      main.ReadMain(bs, n.wire);
      main.Counts(Get(n.wire, bs));
      wake := false;
      if main.rstreamKarma >= ACK_THRESHOLD {
        var control := clients.Control(n.pool);
        wake := clients.PushWriter(control, n.pool);
      }
      Record(Gets(bs));
      Stands();
      Idles();
    }

    /** mainr: more of the 4-byte position of the peer. */
    method ReadPosition(arrived: seq<byte>) returns (status: Status)
      requires Valid() && node.wire.conn.Dialing? && |handshake| + |arrived| <= 4
      modifies `asked, `answer, `node, `log, `handshake, main, main.stream, main.wout
      modifies clients`table, clients`writeHead, clients`writeTail, clients`karmaHead, clients`karmaTail, clients.crew
      ensures status.Fine? || status.Aborted? || status.Misled?
      ensures status.Fine? ==> Valid() && start == old(start) && old(log) <= log && SameReading(old(node), node)
      ensures status.Misled? ==>
          Valid() && BadPosition(node.wire.streamPos, old(handshake) + arrived) && start == old(start) &&
          log == old(log)
      ensures status.Misled? ==> node == old(node)
      ensures status.Fine? && |old(handshake) + arrived| < 4 ==>
          handshake == old(handshake) + arrived && node == old(node) && log == old(log)
      ensures old(asked) <= asked
      ensures status.Aborted? ==> Stuck() && old(log) <= log
      ensures status.Fine? && |old(handshake) + arrived| == 4 ==>
          !BadPosition(old(node.wire.streamPos), old(handshake) + arrived) &&
          old(log) + [Shakes(GetInt(old(handshake) + arrived))] <= log
    {
      hide *;
      ReadingHere(node);
      var whole := handshake + arrived;
      status := Fine;
      if |whole| < 4 {
        handshake := whole;
      } else {
        var pos := GetInt(whole);
        Stops();
        Holds();
        main.Stays(node.wire);
        Positions(main.streamPos, whole);
        if !GoodPosition(main.streamPos, pos) {
          return Misled;
        }
        handshake := [];
        status := Resume(pos);
      }
    }

    /** mainr: the handshake is complete. */
    method Resume(pos: int) returns (status: Status)
      requires Valid() && node.wire.conn.Dialing? && GoodPosition(node.wire.streamPos, pos)
      modifies `asked, `answer, `node, `log, `handshake, main, main.stream, main.wout
      modifies clients`table, clients`writeHead, clients`writeTail, clients`karmaHead, clients`karmaTail, clients.crew
      ensures status.Fine? || status.Aborted?
      ensures status.Fine? ==>
          Valid() && start == old(start) && old(log) + [Shakes(pos)] <= log &&
          SameReading(old(node), node)
      ensures old(asked) <= asked
      ensures status.Aborted? ==> Stuck() && old(log) <= log
    {
      hide *;
      Stops();
      Holds();
      ghost var n := node;
      ItShakes(n, pos);
      main.Settle(pos, n.wire);
      Turn(Shakes(pos));
      Stands();
      Idles();
      ghost var m := node;
      var failed := Wakes(true);
      if failed {
        return Aborted;
      }
      AsideReads(m, node);
      ReadingOn(n, m, node);
      status := Fine;
    }

    /** read() on the main connection, where `arrivals` is what is there. */
    method Receives(arrivals: seq<byte>, n: nat) returns (t: Transfer)
      requires n >= 1
      modifies `asked, `answer
      ensures t.Moved? ==> 1 <= t.amt <= n && t.amt <= |arrivals|
      ensures asked == old(asked) + 1 && answer == t && (t.WouldBlock? ==> arrivals == [])
    {
      var k, most: int := *, if n < |arrivals| then n else |arrivals|;
      t := if 1 <= k <= most then Moved(k) else if k < 0 || arrivals != [] then Lost else WouldBlock;
      asked, answer := asked + 1, t;
    }

    /** mainr while the peer position is still to come. */
    method ReadHandshake(arrivals: seq<byte>) returns (status: Status, settled: bool, rest: seq<byte>,
        ghost position: seq<byte>)
      requires Valid() && node.wire.conn.Dialing?
      modifies `asked, `answer, `node, `log, `handshake, main, main.stream, main.wout
      modifies clients`table, clients`writeHead, clients`writeTail, clients`karmaHead, clients`karmaTail, clients.crew
      ensures arrivals == position + rest
      ensures status.Fine? || status.Aborted? || status.Misled?
      ensures status.Fine? ==> Valid() && start == old(start) && old(log) <= log && SameReading(old(node), node)
      ensures status.Misled? ==> BadPosition(old(node.wire.streamPos), old(handshake) + position)
      ensures old(asked) <= asked
      ensures status.Aborted? ==> Stuck() && old(log) <= log
      ensures status.Fine? && settled ==> Settled(old(log), old(node.wire.streamPos), old(handshake) + position)
      ensures status.Fine? && !settled ==>
          |old(handshake) + position| < 4 &&
          (rest == [] || (old(asked) < asked && answer.Lost?))
    {
      hide *;
      position, rest, settled := [], arrivals, false;
      ghost var n := node;
      ReadingHere(n);
      while true
        invariant Valid() && start == old(start) && log == old(log) && old(asked) <= asked && node == n
        invariant arrivals == position + rest && handshake == old(handshake) + position
        decreases |rest|
      {
        var t := Receives(rest, 4 - |handshake|);
        if t.Lost? {
          Loses();
          return Fine, false, rest, position;
        } else if t.WouldBlock? {
          return Fine, false, rest, position;
        }
        var arrived := rest[..t.amt];
        position, rest := position + arrived, rest[t.amt..];
        assert handshake + arrived == old(handshake) + position;
        settled := |handshake| + t.amt == 4;
        status := ReadPosition(arrived);
        if !status.Fine? {
          return;
        }
        if settled {
          Settles(old(log), n.wire.streamPos, old(handshake) + position);
          return;
        }
      }
    }

    method Loses()
      requires Valid()
      modifies `node, `log, `handshake, main`conn
      ensures Valid() && start == old(start) && old(log) <= log && SameReading(old(node), node)
      ensures !node.wire.conn.Ready?
    {
      hide *;
      Stops();
      DisconnectMain();
      AsideReads(old(node), node);
      Idles();
    }

    /** mainr behind the handshake, as long as this connection lasts. */
    method ReadStream(arrivals: seq<byte>) returns (status: Status, rest: seq<byte>, ghost got: seq<byte>)
      requires Valid() && node.inbox == [] && Tight(node.wire)
      modifies `asked, `answer, `node, `log, `handshake, main, main.stream, main.rin, main.wout, clients, clients.crew,
          clients.bufs
      ensures fresh(clients.crew - old(clients.crew)) && fresh(clients.bufs - old(clients.bufs))
      ensures arrivals == got + rest && !status.Misled?
      ensures status.Fine? ==> Valid() && node.inbox == [] && Tight(node.wire) && start == old(start) && old(log) <= log
      ensures status.Fine? ==> node.wire.heard == old(node.wire.heard) + got
      ensures status.Rejected? ==> Core() && Fails(node) && start == old(start) && old(log) <= log
      ensures old(asked) <= asked
      ensures status.Aborted? ==> Stuck() && old(log) <= log
      ensures status.Fine? ==> rest == [] || !node.wire.conn.Ready?
      ensures !old(node.wire.conn).Ready? ==> status.Fine? && rest == arrivals
    {
      hide *;
      got, rest, status := [], arrivals, Fine;
      Stops();
      Holds();
      main.Counts(node.wire);
      while main.conn.Ready?
        invariant Valid() && start == old(start) && old(log) <= log && old(asked) <= asked && node.inbox == [] &&
            Tight(node.wire)
        invariant fresh(clients.crew - old(clients.crew)) && fresh(clients.bufs - old(clients.bufs))
        invariant status.Fine? && arrivals == got + rest &&
            (!old(node.wire.conn).Ready? ==> !main.conn.Ready? && got == [])
        invariant node.wire.heard == old(node.wire.heard) + got && main.conn == node.wire.conn
        decreases |rest|
      {
        var go, amt;
        go, status, amt := ReadOnce(rest);
        got, rest := got + rest[..amt], rest[amt..];
        if !go {
          return;
        }
        Stops();
        Holds();
        main.Counts(node.wire);
      }
    }

    /** read() has found the main connection closed. */
    method Hangup()
      requires Valid() && node.inbox == [] && Tight(node.wire)
      modifies `node, `log, `handshake, main`conn
      ensures Valid() && node.inbox == [] && Tight(node.wire) && start == old(start) && old(log) <= log
      ensures node.wire.heard == old(node.wire.heard) && !node.wire.conn.Ready?
    {
      hide *;
      ghost var n := node;
      Loses();
      ReadingStream(n, node);
      Rested(n, node);
      TightOn(n.wire, node.wire);
    }

    /** One turn of mainr's loop; it is the last one unless `go`. */
    method ReadOnce(arrivals: seq<byte>) returns (go: bool, status: Status, amt: nat)
      requires Valid() && node.inbox == [] && Tight(node.wire) && node.wire.conn.Ready?
      modifies `asked, `answer, `node, `log, `handshake, main, main.stream, main.rin, main.wout, clients, clients.crew,
          clients.bufs
      ensures fresh(clients.crew - old(clients.crew)) && fresh(clients.bufs - old(clients.bufs))
      ensures amt <= |arrivals| && !status.Misled? && (go ==> status.Fine? && 0 < amt)
      ensures status.Fine? ==> Valid() && node.inbox == [] && Tight(node.wire) && start == old(start) && old(log) <= log
      ensures status.Fine? ==> node.wire.heard == old(node.wire.heard) + arrivals[..amt]
      ensures status.Rejected? ==> Core() && Fails(node) && start == old(start) && old(log) <= log
      ensures old(asked) <= asked
      ensures status.Aborted? ==> Stuck() && old(log) <= log
      ensures !go && status.Fine? ==> amt == 0 && (arrivals == [] || !node.wire.conn.Ready?)
    {
      hide *;
      go, status, amt := false, Fine, 0;
      ghost var n := node;
      Stops();
      Holds();
      main.Counts(n.wire);
      TightSize(n.wire);
      var ok, count := main.ReadCount(n.wire);
      if !ok {
        SizeFails(n);
        Stretch();
        return false, Rejected, 0;
      }
      TightLimit(n.wire);
      var t := Receives(arrivals, count);
      if t.Lost? {
        Hangup();
        return;
      } else if t.WouldBlock? {
        return;
      }
      amt := t.amt;
      var bs := arrivals[..amt];
      var full := main.rpos >= HEADER && amt == count;
      MayGet(n.wire, bs);
      GetTight(n.wire, bs);
      status := TakeIn(bs, full);
      go := status.Fine?;
    }

    /** What read() has delivered goes into rin, and if that makes a whole packet, it is processed. */
    method TakeIn(bs: seq<byte>, full: bool) returns (status: Status)
      requires Valid() && node.inbox == [] && CanGet(node.wire, bs)
      requires if full then Complete(Get(node.wire, bs)) else Tight(Get(node.wire, bs))
      modifies `asked, `answer, `node, `log, `handshake, main, main.stream, main.rin, main.wout, clients, clients.crew,
          clients.bufs
      ensures fresh(clients.crew - old(clients.crew)) && fresh(clients.bufs - old(clients.bufs))
      ensures !status.Misled?
      ensures status.Fine? ==> Valid() && node.inbox == [] && Tight(node.wire) && start == old(start) && old(log) <= log
      ensures status.Fine? ==> node.wire.heard == old(node.wire.heard) + bs
      ensures status.Rejected? ==> Core() && Fails(node) && start == old(start) && old(log) <= log
      ensures old(asked) <= asked
      ensures status.Aborted? ==> Stuck() && old(log) <= log
    {
      hide *;
      ghost var w := Get(node.wire, bs);
      var failed := ReadSome(bs);
      if failed {
        return Aborted;
      }
      TightOn(w, node.wire);
      status := Fine;
      if full {
        status := Process();
        if status.Fine? {
          Stops();
          Holds();
          TightEmpty(node);
        }
      }
    }

    /**
     mainr. `arrivals` is what the main connection delivers: the rest of the peer position if that is
     still to come, then the stream. `rest` is not read.
     */
    method MainR(arrivals: seq<byte>) returns (status: Status, rest: seq<byte>, ghost position: seq<byte>,
        ghost got: seq<byte>)
      requires Valid() && node.inbox == [] && Tight(node.wire)
      modifies `asked, `answer, `node, `log, `handshake, main, main.stream, main.rin, main.wout, clients, clients.crew,
          clients.bufs
      ensures fresh(clients.crew - old(clients.crew)) && fresh(clients.bufs - old(clients.bufs))
      ensures arrivals == position + got + rest && (position != [] ==> old(node.wire.conn).Dialing?)
      ensures status.Fine? ==> Valid() && node.inbox == [] && Tight(node.wire) && start == old(start) && old(log) <= log
      ensures status.Fine? ==> node.wire.heard == old(node.wire.heard) + got
      ensures status.Rejected? ==> Core() && Fails(node) && start == old(start) && old(log) <= log
      ensures status.Misled? ==> BadPosition(old(node.wire.streamPos), old(handshake) + position)
      ensures old(asked) <= asked
      ensures status.Aborted? ==> Stuck() && old(log) <= log
      ensures status.Fine? ==> match old(node.wire.conn)
        case Ready => rest == [] || !node.wire.conn.Ready?
        case Dialing =>
          if |old(handshake) + position| < 4 then rest == [] || (old(asked) < asked && answer.Lost?)
          else
            Settled(old(log), old(node.wire.streamPos), old(handshake) + position) &&
            (rest == [] || !node.wire.conn.Ready?)
        case Down => rest == arrivals
    {
      hide *;
      status, rest, position, got := Fine, arrivals, [], [];
      ghost var n := node;
      Stops();
      Holds();
      main.Counts(n.wire);
      var settled := true;
      if main.conn.Dialing? {
        status, settled, rest, position := ReadHandshake(arrivals);
        if !status.Fine? {
          return;
        }
        ReadingStream(n, node);
        Rested(n, node);
        TightOn(n.wire, node.wire);
        if settled {
          SettledIs(old(log), n.wire.streamPos, old(handshake) + position);
          status, rest, got := ReadStream(rest);
          Settles(old(log), n.wire.streamPos, old(handshake) + position);
        }
      } else {
        status, rest, got := ReadStream(rest);
      }
    }

    /* ---- muxloop ---- */

    /** muxloop on the mux side: a connection is accepted and gets the lowest free id. */
    method Accept() returns (failed: bool, cd: ClientData, ghost id: int)
      requires Valid() && !clients.demux && exists i | 0 < i < MAX_CLIENTS :: i !in node.pool.table
      modifies `asked, `answer, `node, `log, `handshake, main, main.stream, main.wout, clients, clients.crew
      ensures fresh(clients.crew - old(clients.crew)) && fresh(clients.bufs - old(clients.bufs)) && cd in clients.crew
      ensures 0 < id < MAX_CLIENTS && IsLowestFree(old(node.pool.table), id)
      ensures !failed ==> Valid() && start == old(start) && old(log) + [Does(Joins(id))] <= log
      ensures !failed ==> SameReading(old(node), node)
      ensures old(asked) <= asked
      ensures failed ==> Stuck() && old(log) <= log
    {
      hide *;
      ghost var n := node;
      var wake;
      cd, id, wake := Admit();
      failed := Wakes(wake);
      if !failed {
        ReadsOn(n, Joins(id), node);
      }
    }

    /** Up to the acknowledgment that gives the client its credit. */
    method Admit() returns (cd: ClientData, ghost id: int, wake: bool)
      requires Valid() && !clients.demux && exists i | 0 < i < MAX_CLIENTS :: i !in node.pool.table
      modifies `node, `log, clients, clients.crew
      ensures fresh(clients.crew - old(clients.crew)) && fresh(clients.bufs - old(clients.bufs)) && cd in clients.crew
      ensures 0 < id < MAX_CLIENTS && IsLowestFree(old(node.pool.table), id)
      ensures Valid() && start == old(start) && log == old(log) + [Does(Joins(id))]
      ensures CanStep(old(node), Joins(id)) && node == NodeState.Step(old(node), Joins(id))
    {
      hide *;
      Stops();
      Holds();
      clients.Looks(0, node.pool);
      TidyReadyHere(node);
      cd, id, wake := clients.Accepted(node.pool);
      JoinsIs(node, id);
      StepHealthy(node, Joins(id));
      Record(Joins(id));
      Stands();
      Idles();
    }

    /**
     muxloop: epoll reports a client. `alive` is what socket_connected says of one that is connecting. What
     has come from the client is announced, and what waits for it is written.
     */
    method ClientReady(cd: ClientData, alive: bool, input: bool, output: bool) returns (failed: bool)
      requires Valid() && cd in clients.crew && cd.num != 0 && (cd.isConnecting ==> cd.up)
      modifies `asked, `answer, `node, `log, `handshake, main, main.stream, main.wout
      modifies clients`table, clients`writeHead, clients`writeTail, clients`karmaHead, clients`karmaTail, clients.crew
      ensures !failed ==> Valid() && start == old(start) && old(log) <= log && SameReading(old(node), node)
      ensures old(asked) <= asked
      ensures failed ==> Stuck() && old(log) <= log
      ensures !failed && old(cd.isConnecting) ==>
          old(log) + [if alive then Does(Acts(Act.Establish(cd.num))) else Does(Acts(Drop(cd.num)))] <= log
      ensures !failed && input && old(!cd.isBurned && cd.up) && (old(cd.isConnecting) ==> alive) ==>
          Does(Acts(Push(cd.num))) in log[|old(log)|..]
      ensures !failed && output && (old(cd.isConnecting) ==> alive) ==>
          Served(cd.num) ||
          (old(asked) < asked && answer.WouldBlock?)
    {
      hide *;
      failed := false;
      ghost var n := node;
      ReadingHere(n);
      if cd.isConnecting {
        if !alive {
          failed := DisconnectClient(cd);
          return;
        }
        Establish(cd);
      }
      ghost var before, pushes := log, input && !cd.isBurned && cd.up;
      ghost var m := node;
      if input {
        failed := ClientR(cd);
        if !failed {
          ReadingOn(n, m, node);
        }
      }
      m := node;
      if !failed && output {
        failed := ClientW(cd);
        if !failed {
          ReadingOn(n, m, node);
        }
      }
      if !failed && pushes {
        Later(old(log), before, Does(Acts(Push(cd.num))), log);
      }
    }

    /** muxloop: the connection of a client is made. */
    method Establish(cd: ClientData)
      requires Valid() && cd in clients.crew && cd.num != 0 && cd.up
      modifies `node, `log, cd`isConnecting
      ensures Valid() && start == old(start) && log == old(log) + [Does(Acts(Act.Establish(cd.num)))] &&
          !cd.isConnecting
      ensures SameReading(old(node), node)
    {
      hide *;
      Stops();
      Holds();
      clients.Flags(cd, node.pool);
      EstablishIs(node, cd.num);
      StepHealthy(node, Acts(Act.Establish(cd.num)));
      clients.AssignConnecting(cd, false, node.pool);
      Record(Acts(Act.Establish(cd.num)));
      Stands();
      Idles();
      AsideHere(node);
      ReadsOn(old(node), Acts(Act.Establish(cd.num)), node);
    }

    /** Between two events of muxloop: mainr is not in the middle of anything. */
    ghost predicate Rests()
      reads `start, `node, `log, main, main.stream, main.rin, main.wout, clients, clients.crew, clients.bufs
    {
      Valid() && node.inbox == [] && Tight(node.wire)
    }

    lemma Resting()
      requires Rests()
      ensures Valid() && node.inbox == [] && Tight(node.wire)
    {
    }

    lemma Rest()
      requires Valid() && node.inbox == [] && Tight(node.wire)
      ensures Rests()
    {
    }

    lemma RestsOn(n: Node)
      requires n.inbox == [] && Tight(n.wire) && Valid() && SameReading(n, node)
      ensures Rests()
    {
      hide Valid, Tight;
      TightOn(n.wire, node.wire);
    }

    ghost predicate Reported(r: Report)
      reads `node, clients, clients.crew
    {
      match r
      case Incoming => !clients.demux && exists i | 0 < i < MAX_CLIENTS :: i !in node.pool.table
      case ForClient(cd, _, _, _) => cd in clients.crew && cd.num != 0 && (cd.isConnecting ==> cd.up)
      case _ => true
    }

    lemma Reports(r: Report)
      requires Reported(r)
      ensures r.Incoming? ==> !clients.demux && exists i | 0 < i < MAX_CLIENTS :: i !in node.pool.table
      ensures r.ForClient? ==> r.cd in clients.crew && r.cd.num != 0 && (r.cd.isConnecting ==> r.cd.up)
    {
    }

    /** One event of muxloop. Whatever it is, mainr can take up the stream again behind it. */
    method Serve(r: Report) returns (status: Status, ghost position: seq<byte>, ghost got: seq<byte>)
      requires Rests() && Reported(r)
      modifies `asked, `answer, `node, `log, `handshake, main, main.stream, main.rin, main.wout, clients, clients.crew,
          clients.bufs
      ensures fresh(clients.crew - old(clients.crew)) && fresh(clients.bufs - old(clients.bufs))
      ensures status.Fine? ==> Rests() && start == old(start) && old(log) <= log
      ensures status.Fine? ==> node.wire.heard == old(node.wire.heard) + got
      ensures if r.ForMain? then position + got <= r.arrivals else position == got == []
      ensures status.Fine? ==> match r
        case Incoming => exists id | IsLowestFree(old(node.pool.table), id) :: old(log) + [Does(Joins(id))] <= log
        case Tick => old(log) + [Does(Acts(Push(0)))] <= log
        case NewNetwork => !node.wire.conn.Ready?
        case ForClient(cd, alive, input, output) =>
          output && (old(cd.isConnecting) ==> alive) ==> Served(cd.num) || (old(asked) < asked && answer.WouldBlock?)
        case ForMain(made, input, arrivals, output) => !input ==> position == got == []
      ensures status.Rejected? ==> r.ForMain? && Core() && Fails(node) && start == old(start) && old(log) <= log
      ensures status.Misled? ==> r.ForMain? && Misleads(old(node.wire), old(handshake), position)
      ensures status.Aborted? ==> Stuck()
    {
      hide *;
      Resting();
      Reports(r);
      status, position, got := Fine, [], [];
      var failed := false;
      ghost var n := node;
      ReadingHere(n);
      Rested(n, n);
      match r {
        case Incoming =>
          var cd;
          ghost var id;
          failed, cd, id := Accept();
          assert !failed ==> IsLowestFree(old(node.pool.table), id) && old(log) + [Does(Joins(id))] <= log;
        case Tick =>
          failed := KeepAlive();
        case NewNetwork =>
          Hangup();
          Rest();
          return;
        case ForClient(cd, alive, input, output) =>
          failed := ClientReady(cd, alive, input, output);
        case ForMain(made, input, arrivals, output) =>
          status, position, got := MainReady(made, input, arrivals, output);
          return;
      }
      if failed {
        status := Aborted;
      } else {
        ReadingStream(n, node);
        Rested(n, node);
        RestsOn(n);
      }
    }

    /** The timer that keeps the connection alive: the control client is announced. */
    method KeepAlive() returns (failed: bool)
      requires Valid()
      modifies `asked, `answer, `node, `log, `handshake, main, main.stream, main.wout
      modifies clients`table, clients`writeHead, clients`writeTail, clients`karmaHead, clients`karmaTail, clients.crew
      ensures !failed ==> Valid() && start == old(start) && old(log) + [Does(Acts(Push(0)))] <= log
      ensures !failed ==> SameReading(old(node), node)
      ensures failed ==> Stuck()
    {
      hide *;
      Stops();
      Holds();
      TidyReadyHere(node);
      TidyReady(node.pool);
      ReadyControl(node.pool);
      var control := clients.Control(node.pool);
      failed := PushWriter(control);
    }

    /** epoll reports the main connection; `made` says that a connect under way has succeeded. */
    method MainReady(made: bool, input: bool, arrivals: seq<byte>, output: bool)
        returns (status: Status, ghost position: seq<byte>, ghost got: seq<byte>)
      requires Rests()
      modifies `asked, `answer, `node, `log, `handshake, main, main.stream, main.rin, main.wout, clients, clients.crew,
          clients.bufs
      ensures fresh(clients.crew - old(clients.crew)) && fresh(clients.bufs - old(clients.bufs))
      ensures position + got <= arrivals && (!input ==> position == got == [])
      ensures status.Fine? ==> Rests() && start == old(start) && old(log) <= log
      ensures status.Fine? ==> node.wire.heard == old(node.wire.heard) + got
      ensures status.Rejected? ==> Core() && Fails(node) && start == old(start) && old(log) <= log
      ensures status.Misled? ==> Misleads(old(node.wire), old(handshake), position)
      ensures status.Aborted? ==> Stuck()
    {
      hide *;
      Resting();
      Stops();
      Holds();
      main.Counts(node.wire);
      status, position, got := Fine, [], [];
      ghost var n := node;
      if main.conn.Down? {
        Redial(made);
        if !made {
          return;
        }
      }
      ghost var m, before := node, handshake;
      status, position, got := Exchange(input, arrivals, output);
      if status.Misled? {
        Misleading(n.wire, m.wire, old(handshake), before, position);
      }
    }

    /** mainr and mainw for a main connection, as far as it is ready for them. */
    method Exchange(input: bool, arrivals: seq<byte>, output: bool)
        returns (status: Status, ghost position: seq<byte>, ghost got: seq<byte>)
      requires Rests()
      modifies `asked, `answer, `node, `log, `handshake, main, main.stream, main.rin, main.wout, clients, clients.crew,
          clients.bufs
      ensures fresh(clients.crew - old(clients.crew)) && fresh(clients.bufs - old(clients.bufs))
      ensures position + got <= arrivals && (!input ==> position == got == [])
      ensures position != [] ==> old(node.wire.conn).Dialing?
      ensures status.Fine? ==> Rests() && start == old(start) && old(log) <= log
      ensures status.Fine? ==> node.wire.heard == old(node.wire.heard) + got
      ensures status.Rejected? ==> Core() && Fails(node) && start == old(start) && old(log) <= log
      ensures status.Misled? ==> BadPosition(old(node.wire.streamPos), old(handshake) + position)
      ensures status.Aborted? ==> Stuck()
    {
      hide *;
      status, position, got := Fine, [], [];
      if input {
        status, position, got := Arrives(arrivals);
      }
      if output && status.Fine? {
        status := Flushes();
      }
    }

    /** mainr for the main connection. */
    method Arrives(arrivals: seq<byte>) returns (status: Status, ghost position: seq<byte>, ghost got: seq<byte>)
      requires Rests()
      modifies `asked, `answer, `node, `log, `handshake, main, main.stream, main.rin, main.wout, clients, clients.crew,
          clients.bufs
      ensures fresh(clients.crew - old(clients.crew)) && fresh(clients.bufs - old(clients.bufs))
      ensures position + got <= arrivals && (position != [] ==> old(node.wire.conn).Dialing?)
      ensures status.Fine? ==> Rests() && start == old(start) && old(log) <= log
      ensures status.Fine? ==> node.wire.heard == old(node.wire.heard) + got
      ensures status.Rejected? ==> Core() && Fails(node) && start == old(start) && old(log) <= log
      ensures status.Misled? ==> BadPosition(old(node.wire.streamPos), old(handshake) + position)
      ensures status.Aborted? ==> Stuck()
    {
      hide *;
      Resting();
      var rest;
      status, rest, position, got := MainR(arrivals);
      assert arrivals[..|position + got|] == position + got;
      if status.Fine? {
        Rest();
      }
    }

    /** mainw for the main connection. */
    method Flushes() returns (status: Status)
      requires Rests()
      modifies `asked, `answer, `node, `log, `handshake, main, main.stream, main.wout
      modifies clients`table, clients`writeHead, clients`writeTail, clients`karmaHead, clients`karmaTail, clients.crew
      ensures status.Fine? || status.Aborted?
      ensures status.Fine? ==> Rests() && start == old(start) && old(log) <= log
      ensures status.Fine? ==> node.wire.heard == old(node.wire.heard)
      ensures status.Aborted? ==> Stuck()
    {
      hide *;
      Resting();
      var failed;
      ghost var stop;
      failed, stop := MainW();
      if failed {
        return Aborted;
      }
      AsideReads(old(node), node);
      ReadingStream(old(node), node);
      Rested(old(node), node);
      RestsOn(old(node));
      status := Fine;
    }

    /** The main connection has been made, or initiate_main_connect tries again and may have it at once. */
    method Redial(made: bool)
      requires Rests() && node.wire.conn.Down?
      modifies `node, `log, `handshake, main`conn
      ensures Rests() && start == old(start) && old(log) <= log && node.wire.heard == old(node.wire.heard)
      ensures made ==> node == old(node).(wire := old(node).wire.(conn := Dialing)) && handshake == []
    {
      hide *;
      var again: bool := *;
      if made || again {
        Resting();
        Connected();
        AsideReads(old(node), node);
        ReadingStream(old(node), node);
        Rested(old(node), node);
        RestsOn(old(node));
      }
    }

    /** The main connection is made, or one is taken up by its key, and write_mux_header has sent our position. */
    method Connected()
      requires Valid() && node.wire.conn.Down?
      modifies `node, `log, `handshake, main`conn
      ensures Valid() && start == old(start) && log == old(log) + [Dials] && Aside(old(node), node)
      ensures node == old(node).(wire := old(node).wire.(conn := Dialing)) && handshake == []
    {
      hide *;
      Stops();
      Holds();
      ItDials(node);
      main.Becomes(Dialing, node.wire);
      handshake := [];
      Turn(Dials);
      Stands();
      Idles();
    }
  }

  lemma Later(before: seq<Happening>, mid: seq<Happening>, h: Happening, log: seq<Happening>)
    requires before <= mid && mid + [h] <= log
    ensures h in log[|before|..]
  {
    assert log[|before|..][|mid| - |before|] == h;
  }

  lemma HalfIs(n: Node)
    ensures HalfWritten(n) <==> n.wire.conn.Ready? && n.pool.writeQ == [] && n.wire.debt == 0 && n.wire.pending != []
  {
  }

  lemma TurnOf(p: Pool)
    requires Tidy(p) && p.writeQ != []
    ensures Distinct(Pop(p).writeQ) && p.writeQ[0] !in Pop(p).writeQ
    ensures p.writeQ[0] < |p.all| && Pop(p).all == p.all && Pop(p).karmaQ == p.karmaQ
  {
    assert p.writeQ[0] in p.writeQ;
    Popped(p.writeQ);
  }

  lemma PopIs(p: Pool)
    requires p.writeQ != []
    ensures Pop(p).writeQ == p.writeQ[1..] && Pop(p).karmaQ == p.karmaQ && Pop(p).all == p.all
  {
  }

  /** The position in the peer's header gives a debt that this side cannot pay from its ring. */
  predicate BadPosition(streamPos: nat, b: seq<byte>) {
    |b| == 4 && !GoodPosition(streamPos, GetInt(b))
  }

  /** The same, from where the handshake was, of what has come since; a new connection starts a new handshake. */
  predicate Misleads(w: Wire, handshake: seq<byte>, arrived: seq<byte>) {
    BadPosition(w.streamPos, (if w.conn.Dialing? then handshake else []) + arrived)
  }

  /** Misled on a connection that was there, or has just been made. */
  lemma Misleading(w: Wire, v: Wire, handshake: Part, before: Part, arrived: seq<byte>)
    requires BadPosition(v.streamPos, before + arrived) && (arrived != [] ==> v.conn.Dialing?)
    requires if w.conn.Down? then v == w.(conn := Dialing) && before == [] else v == w && before == handshake
    ensures Misleads(w, handshake, arrived)
  {
  }

  lemma Positions(streamPos: nat, b: seq<byte>)
    requires |b| == 4
    ensures BadPosition(streamPos, b) <==> !GoodPosition(streamPos, GetInt(b))
  {
  }
}
