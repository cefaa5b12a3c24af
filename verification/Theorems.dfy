/** What holds in every state of every run of the mux side, the demux side and their connections. */
module TcpmuxTheorems {
  import opened Packets
  import opened WireState
  import opened WireProtocol
  import opened PoolState
  import opened Sessions
  import opened ClientProtocol
  import opened NodeState
  import opened TcpmuxSystem

  /** A run: any steps, each enabled where it is taken. */
  predicate CanGo(s: Sys, steps: seq<TcpmuxSystem.Step>)
    decreases |steps|
  {
    steps == [] || (Enabled(s, steps[0]) && CanGo(Next(s, steps[0]), steps[1..]))
  }

  function Go(s: Sys, steps: seq<TcpmuxSystem.Step>): Sys
    requires CanGo(s, steps)
    decreases |steps|
  {
    if steps == [] then s else Go(Next(s, steps[0]), steps[1..])
  }

  lemma {:induction false} InvAlong(s: Sys, steps: seq<TcpmuxSystem.Step>)
    requires Inv(s) && CanGo(s, steps)
    ensures Inv(Go(s, steps))
    decreases |steps|
  {
    if steps != [] {
      hide Inv, Enabled, Next;
      NextKeeps(s, steps[0]);
      InvAlong(Next(s, steps[0]), steps[1..]);
    }
  }

  lemma Reaches(s: Sys, steps: seq<TcpmuxSystem.Step>)
    requires Start(s) && CanGo(s, steps)
    ensures Inv(Go(s, steps))
  {
    hide Inv, Agreed, Coupled;
    StartCoupled(s.mux.wire, s.demux.wire);
    StartAgreed(s);
    StartInv(s);
    hide Start;
    InvAlong(s, steps);
  }

  /**
   The main stream arrives exactly once and in order: what either side has read is a prefix of what
   the other passed to write_mainfd, and what it has decoded a prefix of what the other composed.
   While both share a connection, what is missing is in flight or is the debt still to be repaid.
   */
  lemma StreamExactlyOnce(s: Sys, steps: seq<TcpmuxSystem.Step>)
    requires Start(s) && CanGo(s, steps)
    ensures var t := Go(s, steps);
      && t.demux.wire.heard <= t.mux.wire.hist
      && t.mux.wire.heard <= t.demux.wire.hist
      && t.demux.wire.got <= t.mux.wire.sent
      && t.mux.wire.got <= t.demux.wire.sent
    ensures var t := Go(s, steps);
      && (t.link.linked && t.mux.wire.conn.Ready? ==>
            |t.mux.wire.hist| == |t.demux.wire.heard| + |t.link.toDemux| + t.mux.wire.debt)
      && (t.link.linked && t.demux.wire.conn.Ready? ==>
            |t.demux.wire.hist| == |t.mux.wire.heard| + |t.link.toMux| + t.demux.wire.debt)
  {
    hide Agreed, Flow, Sound;
    Reaches(s, steps);
  }

  /** Credit for the main stream is conserved in both directions, and no position is ever off by a lap. */
  lemma GlobalCreditConserved(s: Sys, steps: seq<TcpmuxSystem.Step>)
    requires Start(s) && CanGo(s, steps)
    ensures var t := Go(s, steps); var x, y := t.mux.wire, t.demux.wire;
      && x.streamKarma + (|x.hist| - |y.heard|) + y.rstreamKarma + (AckTotal(y.sent) - AckTotal(x.got)) ==
          GLOBAL_KARMA - 1
      && y.streamKarma + (|y.hist| - |x.heard|) + x.rstreamKarma + (AckTotal(x.sent) - AckTotal(y.got)) ==
          GLOBAL_KARMA - 1
      && 0 <= |x.hist| - |y.heard| < GLOBAL_KARMA && 0 <= |y.hist| - |x.heard| < GLOBAL_KARMA
  {
    hide Agreed, Flow;
    Reaches(s, steps);
    var t := Go(s, steps);
    CreditBoth(t.mux.wire, t.demux.wire, t.link);
  }

  lemma CreditBoth(x: Wire, y: Wire, l: Link)
    requires Coupled(x, y, l)
    ensures x.streamKarma + (|x.hist| - |y.heard|) + y.rstreamKarma + (AckTotal(y.sent) - AckTotal(x.got)) ==
        GLOBAL_KARMA - 1
    ensures y.streamKarma + (|y.hist| - |x.heard|) + x.rstreamKarma + (AckTotal(x.sent) - AckTotal(y.got)) ==
        GLOBAL_KARMA - 1
    ensures 0 <= |x.hist| - |y.heard| < GLOBAL_KARMA && 0 <= |y.hist| - |x.heard| < GLOBAL_KARMA
  {
    GlobalCredit(x, y, l.toDemux, l.toMux);
    GlobalCredit(y, x, l.toMux, l.toDemux);
  }

  /** The position exchanged on a reconnect always tells the peer exactly what has not arrived. */
  lemma ReconnectRepaysExactly(s: Sys, steps: seq<TcpmuxSystem.Step>, step: TcpmuxSystem.Step)
    requires Start(s) && CanGo(s, steps) && Enabled(Go(s, steps), step) && Go(s, steps).link.linked
    ensures var t := Go(s, steps); var u := Next(t, step);
      && (step.MuxShakes? ==> u.mux.wire.debt == |t.mux.wire.hist| - |t.demux.wire.heard|)
      && (step.DemuxShakes? ==> u.demux.wire.debt == |t.demux.wire.hist| - |t.mux.wire.heard|)
  {
    hide Agreed, Flow, Coupled;
    Reaches(s, steps);
    var t := Go(s, steps);
    match step
    case MuxShakes(pos) => MuxShakeExact(t.mux.wire, t.demux.wire, t.link);
    case DemuxShakes => DemuxShakeExact(t.mux.wire, t.demux.wire, t.link);
    case _ =>
  }

  /**
   Neither side ever meets a bad packet size, bad global karma, an unknown client or a payload without
   room, and the assertions of write_ack hold.
   */
  lemma NoErrorBranch(s: Sys, steps: seq<TcpmuxSystem.Step>)
    requires Start(s) && CanGo(s, steps)
    ensures !Fails(Go(s, steps).mux) && !Fails(Go(s, steps).demux)
  {
    hide Inv, Fails;
    Reaches(s, steps);
    NeverFails(Go(s, steps));
  }

  /**
   From socket to socket: what one side has written to a client is a prefix of what the other side has
   read from its counterpart, both ways, through any number of reconnects.
   */
  lemma ClientStreams(s: Sys, steps: seq<TcpmuxSystem.Step>, m: nat)
    requires Start(s) && CanGo(s, steps) && m in Go(s, steps).mate
    ensures var t := Go(s, steps); var d := t.mate[m];
      && 0 < m < |t.mux.pool.all| && 0 < d < |t.demux.pool.all|
      && t.mux.pool.all[m].id == t.demux.pool.all[d].id
      && t.demux.pool.all[d].written <= t.mux.pool.all[m].read
      && t.mux.pool.all[m].written <= t.demux.pool.all[d].read
  {
    hide Coupled, Flow, Tidy;
    Reaches(s, steps);
    var w := WorldOf(Go(s, steps));
    assert InSession(w, m);
  }

  /** The credit of one client is conserved while both ends are up, and never exceeds CLIENT_KARMA. */
  lemma ClientCreditConserved(s: Sys, steps: seq<TcpmuxSystem.Step>, m: nat)
    requires Start(s) && CanGo(s, steps) && m in Go(s, steps).mate
    ensures var t := Go(s, steps); var d := t.mate[m]; var w := WorldOf(t);
      && 0 < m < |t.mux.pool.all| && 0 < d < |t.demux.pool.all|
      && w.dtook <= |w.mux.sent| && w.mtook <= |w.demux.sent|
      && var x, y, f, g := t.mux.pool.all[m], t.demux.pool.all[d], ToDemux(w, m), ToMux(w, m);
      && CreditSum(x, y, f, g) <= CLIENT_KARMA && CreditSum(y, x, g, f) <= CLIENT_KARMA
      && (y.up ==> CreditSum(x, y, f, g) == CLIENT_KARMA)
      && (x.up ==> CreditSum(y, x, g, f) == CLIENT_KARMA)
  {
    hide Coupled, Flow, Tidy;
    Reaches(s, steps);
    var w := WorldOf(Go(s, steps));
    assert InSession(w, m);
  }

  /**
   Ids are reused safely: the client an item is handled by is the one it was composed for. The demux
   side makes a new client exactly when the sender is one it has not met.
   */
  lemma ItemsReachTheirClient(s: Sys, steps: seq<TcpmuxSystem.Step>)
    requires Start(s) && CanGo(s, steps)
    ensures var t := Go(s, steps);
      t.mux.inbox != [] ==>
        && t.mux.taken < |t.demux.pool.sent| && t.mux.inbox[0] == t.demux.pool.sent[t.mux.taken].item
        && var d := t.demux.pool.sent[t.mux.taken].owner;
        && d < |t.pair| && t.mux.inbox[0].id in t.mux.pool.table && t.mux.pool.table[t.mux.inbox[0].id] == t.pair[d]
    ensures var t := Go(s, steps);
      t.demux.inbox != [] ==>
        && t.demux.taken < |t.mux.pool.sent| && t.demux.inbox[0] == t.mux.pool.sent[t.demux.taken].item
        && var m := t.mux.pool.sent[t.demux.taken].owner;
        && (t.demux.inbox[0].id in t.demux.pool.table <==> m in t.mate)
        && (m in t.mate ==> t.demux.pool.table[t.demux.inbox[0].id] == t.mate[m])
  {
    hide Coupled, Flow, Agreed;
    Reaches(s, steps);
    var t := Go(s, steps);
    var w := WorldOf(t);
    if t.mux.inbox != [] {
      MuxInbox(t);
      MuxKnows(w);
    }
    if t.demux.inbox != [] {
      DemuxInbox(t);
      DemuxKnows(w);
    }
  }

  /** A client leaves the table exactly when both notices are through on its side. */
  lemma SlotsFreedInTime(s: Sys, steps: seq<TcpmuxSystem.Step>, h: nat)
    requires Start(s) && CanGo(s, steps) && 0 < h
    ensures var p := Go(s, steps).mux.pool;
      h < |p.all| ==> ((p.all[h].id in p.table && p.table[p.all[h].id] == h) <==> !(p.all[h].said && p.all[h].told))
    ensures var p := Go(s, steps).demux.pool;
      h < |p.all| ==> ((p.all[h].id in p.table && p.table[p.all[h].id] == h) <==> !(p.all[h].said && p.all[h].told))
  {
    hide Coupled, Flow, Shape, InSession;
    Reaches(s, steps);
    var t := Go(s, steps);
    if h < |t.mux.pool.all| {
      InTable(t.mux.pool, h);
    }
    if h < |t.demux.pool.all| {
      InTable(t.demux.pool, h);
    }
  }

  lemma InTable(p: Pool, h: nat)
    requires Tidy(p) && 0 < h < |p.all|
    ensures (p.all[h].id in p.table && p.table[p.all[h].id] == h) <==> !p.all[h].burned
    ensures p.all[h].burned <==> p.all[h].said && p.all[h].told
  {
  }

  /** On either side the lists hold exactly the clients with something to say, each once. */
  lemma QueuesForgetNothing(s: Sys, steps: seq<TcpmuxSystem.Step>)
    requires Start(s) && CanGo(s, steps)
    ensures var t := Go(s, steps);
      && WriteListOk(t.mux.pool) && KarmaListOk(t.mux.pool) && Prompt(t.mux)
      && WriteListOk(t.demux.pool) && KarmaListOk(t.demux.pool) && Prompt(t.demux)
  {
    hide Coupled, Flow, Shape, InSession, WriteListOk, KarmaListOk;
    Reaches(s, steps);
  }
}
