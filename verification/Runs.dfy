/**
 Contexts in a run: the logs that the methods of a mux_context keep, and the runs of both sides; and what
 two contexts of this program do not do to each other.
 */
module TcpmuxRuns {
  import opened NetBytes
  import opened Packets
  import opened WireState
  import opened WireProtocol
  import opened PoolState
  import opened NodeState
  import opened Traces
  import opened MuxContexts
  import opened TcpmuxSystem
  import opened TcpmuxTheorems

  /** What a step is to the mux side. */
  function MuxPart(step: TcpmuxSystem.Step): seq<Happening> {
    match step
    case Mux(e) => [Does(e)]
    case Dial => [Dials]
    case MuxShakes(pos) => [Shakes(pos)]
    case MuxBreaks(_) => [Breaks]
    case _ => []
  }

  /** The demux side gives up an old connection before it takes up a new one. */
  function Retakes(n: Node): seq<Happening> {
    if n.wire.conn.Down? then [Dials] else [Breaks, Dials]
  }

  /** What a step is to the demux side. */
  function DemuxPart(s: Sys, step: TcpmuxSystem.Step): seq<Happening> {
    match step
    case Demux(e) => [Does(e)]
    case Answer => Retakes(s.demux)
    case AnswerLate(pos, _) => Retakes(s.demux) + [Shakes(pos)]
    case DemuxShakes => [Shakes(s.link.muxPos)]
    case DemuxBreaks(_) => [Breaks]
    case _ => []
  }

  function MuxLog(steps: seq<TcpmuxSystem.Step>): seq<Happening> {
    if steps == [] then [] else MuxPart(steps[0]) + MuxLog(steps[1..])
  }

  function DemuxLog(s: Sys, steps: seq<TcpmuxSystem.Step>): seq<Happening>
    requires CanGo(s, steps)
    decreases |steps|
  {
    if steps == [] then [] else DemuxPart(s, steps[0]) + DemuxLog(Next(s, steps[0]), steps[1..])
  }

  /** Happenings, first to last. */
  predicate Follows(n: Node, log: seq<Happening>, m: Node)
    decreases |log|
  {
    if log == [] then n == m else CanHappen(n, log[0]) && Follows(After(n, log[0]), log[1..], m)
  }

  lemma {:induction false} FollowsOn(n: Node, a: seq<Happening>, m: Node, b: seq<Happening>, r: Node)
    requires Follows(n, a, m) && Follows(m, b, r)
    ensures Follows(n, a + b, r)
    decreases |a|
  {
    hide CanHappen, After;
    if a == [] {
      assert a + b == b;
    } else {
      FollowsOn(After(n, a[0]), a[1..], m, b, r);
      assert (a + b)[1..] == a[1..] + b;
    }
  }

  lemma {:induction false} FollowsTo(n: Node, log: seq<Happening>, m: Node, h: Happening)
    requires Follows(n, log, m) && CanHappen(m, h)
    ensures Follows(n, log + [h], After(m, h))
  {
    hide CanHappen, After;
    assert Follows(After(m, h), [], After(m, h));
    assert [h][1..] == [];
    FollowsOn(n, log, m, [h], After(m, h));
  }

  /** A log leads where its happenings go, and nowhere else. */
  lemma {:induction false} LeadsFollows(n: Node, log: seq<Happening>, m: Node)
    requires Leads(n, log, m)
    ensures Follows(n, log, m)
    decreases |log|
  {
    hide CanHappen, After;
    if log != [] {
      var last := |log| - 1;
      var k :| Leads(n, log[..last], k) && Goes(k, log[last], m);
      LeadsFollows(n, log[..last], k);
      FollowsTo(n, log[..last], k, log[last]);
      assert log[..last] + [log[last]] == log;
    }
  }

  lemma {:induction false} FollowsOne(n: Node, log: seq<Happening>, m: Node, r: Node)
    requires Follows(n, log, m) && Follows(n, log, r)
    ensures m == r
    decreases |log|
  {
    hide CanHappen, After;
    if log != [] {
      FollowsOne(After(n, log[0]), log[1..], m, r);
    }
  }

  /* ---- a run and the logs of its sides ---- */

  lemma Once(n: Node, h: Happening)
    requires CanHappen(n, h)
    ensures Follows(n, [h], After(n, h))
  {
    hide CanHappen, After;
    Here(n);
    FollowsTo(n, [], n, h);
    assert [] + [h] == [h];
  }

  lemma MuxFollows(s: Sys, step: TcpmuxSystem.Step)
    requires Enabled(s, step)
    ensures Follows(s.mux, MuxPart(step), Next(s, step).mux)
  {
    hide NodeState.Step, CanStep;
    var part := MuxPart(step);
    if part != [] {
      assert Next(s, step).mux == After(s.mux, part[0]);
      Once(s.mux, part[0]);
    }
  }

  lemma RetakesFollow(n: Node)
    requires !n.wire.conn.Dialing?
    ensures Follows(n, Retakes(n), SetConn(n, Dialing))
  {
    hide NodeState.Step, CanStep;
    Once(n, if n.wire.conn.Down? then Dials else Breaks);
    if n.wire.conn.Ready? {
      FollowsTo(n, [Breaks], SetConn(n, Down), Dials);
    }
  }

  lemma DemuxFollows(s: Sys, step: TcpmuxSystem.Step)
    requires Enabled(s, step)
    requires s.link.linked && s.demux.wire.conn.Dialing? ==> GoodPosition(s.demux.wire.streamPos, s.link.muxPos)
    ensures Follows(s.demux, DemuxPart(s, step), Next(s, step).demux)
  {
    hide NodeState.Step, CanStep, Follows, Retakes;
    var n := s.demux;
    match step
    case Answer => RetakesFollow(n);
    case AnswerLate(pos, _) =>
      RetakesFollow(n);
      FollowsTo(n, Retakes(n), SetConn(n, Dialing), Shakes(pos));
    case Demux(e) =>
      assert Next(s, step).demux == After(n, Does(e));
      Once(n, Does(e));
    case DemuxShakes => Once(n, Shakes(s.link.muxPos));
    case DemuxBreaks(_) => Once(n, Breaks);
    case _ => Here(n);
  }

  lemma Here(n: Node)
    ensures Follows(n, [], n)
  {
  }

  lemma {:induction false} MuxRun(s: Sys, steps: seq<TcpmuxSystem.Step>)
    requires CanGo(s, steps)
    ensures Follows(s.mux, MuxLog(steps), Go(s, steps).mux)
    decreases |steps|
  {
    hide Enabled, Next, Follows, MuxPart;
    if steps == [] {
      Here(s.mux);
    } else {
      var t := Next(s, steps[0]);
      MuxFollows(s, steps[0]);
      MuxRun(t, steps[1..]);
      FollowsOn(s.mux, MuxPart(steps[0]), t.mux, MuxLog(steps[1..]), Go(s, steps).mux);
    }
  }

  lemma {:induction false} DemuxRun(s: Sys, steps: seq<TcpmuxSystem.Step>)
    requires Inv(s) && CanGo(s, steps)
    ensures Follows(s.demux, DemuxLog(s, steps), Go(s, steps).demux)
    decreases |steps|
  {
    hide Inv, Enabled, Next, Follows, DemuxPart;
    if steps == [] {
      Here(s.demux);
    } else {
      var t := Next(s, steps[0]);
      PositionsInside(s);
      DemuxFollows(s, steps[0]);
      NextKeeps(s, steps[0]);
      DemuxRun(t, steps[1..]);
      FollowsOn(s.demux, DemuxPart(s, steps[0]), t.demux, DemuxLog(t, steps[1..]), Go(s, steps).demux);
    }
  }

  /** Positions sent in headers are inside the ring, and those a side waits for are good. */
  lemma PositionsInside(s: Sys)
    requires Inv(s)
    ensures s.mux.wire.rstreamPos < GLOBAL_KARMA && s.demux.wire.rstreamPos < GLOBAL_KARMA
    ensures s.link.linked && s.demux.wire.conn.Dialing? ==> GoodPosition(s.demux.wire.streamPos, s.link.muxPos)
    ensures s.link.linked && s.mux.wire.conn.Dialing? ==> GoodPosition(s.mux.wire.streamPos, s.link.demuxPos)
  {
    hide ClientProtocol.Agreed, Flow, Sound, Piped;
    SoundPositions(s.mux.wire);
    SoundPositions(s.demux.wire);
  }

  /* ---- two contexts of this program ---- */

  /**
   Two contexts whose logs are those of the two sides of a run are in the states that the run has come to.
   So neither of them is ever in one where mainr rejects its peer's data or an assertion of write_ack fails:
   MainR never ends with Rejected, and no method gives up.
   */
  lemma ContextsGetAlong(s: Sys, steps: seq<TcpmuxSystem.Step>, a: MuxContext, b: MuxContext)
    requires Start(s) && CanGo(s, steps) && a.Core() && b.Core()
    requires a.start == s.mux && a.log == MuxLog(steps)
    requires b.start == s.demux && b.log == DemuxLog(s, steps)
    ensures a.node == Go(s, steps).mux && b.node == Go(s, steps).demux
    ensures !Fails(a.node) && !a.Stuck() && !Fails(b.node) && !b.Stuck()
  {
    hide *;
    CoreLeads(a);
    CoreLeads(b);
    SidesOfRun(s, steps, a.node, b.node);
    StuckFails(a);
    StuckFails(b);
  }

  lemma CoreLeads(c: MuxContext)
    requires c.Core()
    ensures Leads(c.start, c.log, c.node)
  {
  }

  lemma StuckFails(c: MuxContext)
    ensures c.Stuck() ==> Fails(c.node)
  {
    hide AckFails, Leads;
  }

  /** The same of nodes that logs lead to. */
  lemma SidesOfRun(s: Sys, steps: seq<TcpmuxSystem.Step>, a: Node, b: Node)
    requires Start(s) && CanGo(s, steps)
    requires Leads(s.mux, MuxLog(steps), a) && Leads(s.demux, DemuxLog(s, steps), b)
    ensures a == Go(s, steps).mux && b == Go(s, steps).demux
    ensures !Fails(a) && !Fails(b)
  {
    hide Inv, Start, Fails, Leads, Follows, MuxLog, DemuxLog, Go, CanGo;
    LeadsFollows(s.mux, MuxLog(steps), a);
    LeadsFollows(s.demux, DemuxLog(s, steps), b);
    Whole(s);
    Reaches(s, []);
    MuxRun(s, steps);
    DemuxRun(s, steps);
    FollowsOne(s.mux, MuxLog(steps), a, Go(s, steps).mux);
    FollowsOne(s.demux, DemuxLog(s, steps), b, Go(s, steps).demux);
    NoErrorBranch(s, steps);
  }

  lemma Whole(s: Sys)
    ensures CanGo(s, []) && Go(s, []) == s
  {
  }

  /**
   In every state of every run the position that either side would send is inside the ring, and so one that
   the other side can pay from its own, wherever that is.
   */
  lemma PositionsAreGood(s: Sys, steps: seq<TcpmuxSystem.Step>)
    requires Start(s) && CanGo(s, steps)
    ensures var t := Go(s, steps);
      && t.mux.wire.rstreamPos < GLOBAL_KARMA && t.demux.wire.rstreamPos < GLOBAL_KARMA
      && forall p: nat | p < GLOBAL_KARMA ::
          !BadPosition(p, PutInt(t.mux.wire.rstreamPos)) && !BadPosition(p, PutInt(t.demux.wire.rstreamPos))
  {
    hide Inv, Start, PutInt, GoodPosition;
    Reaches(s, steps);
    var t := Go(s, steps);
    PositionsInside(t);
    PutGetInt(t.mux.wire.rstreamPos);
    PutGetInt(t.demux.wire.rstreamPos);
    AlwaysGood(t.mux.wire.rstreamPos);
    AlwaysGood(t.demux.wire.rstreamPos);
  }

  /** Four bytes for which MainR ends with Misled. */
  lemma BadPositions(streamPos: nat, n: int)
    requires streamPos < GLOBAL_KARMA && IsInt32(n)
    ensures BadPosition(streamPos, PutInt(n)) <==> n <= streamPos - GLOBAL_KARMA || streamPos + GLOBAL_KARMA < n
  {
    hide PutInt, GetInt;
    PutGetInt(n);
    PositionCases(streamPos, n);
  }

  /** A fresh mux side that has dialed waits where one position makes mainw read in front of the ring. */
  lemma BadPositionHurts(s: Sys)
    requires Start(s)
    ensures CanGo(s, [Dial]) && Go(s, [Dial]).mux.wire.conn.Dialing?
    ensures BadPosition(Go(s, [Dial]).mux.wire.streamPos, PutInt(-1 - GLOBAL_KARMA))
    ensures RepayFrom(Shake(Go(s, [Dial]).mux.wire, -1 - GLOBAL_KARMA)) == -1
  {
    hide PutInt, GoodPosition;
    assert [Dial][0] == Dial && [Dial][1..] == [];
    Whole(Next(s, Dial));
    BadPositions(0, -1 - GLOBAL_KARMA);
    BadPositionsExist(Next(s, Dial).mux.wire);
  }

  /* ---- the packet that mainw leaves half written ---- */

  /**
   A client comes, its credit is announced, and write() takes the first byte of that packet only. Nobody
   else has anything to write, so the rest stays where it is.
   */
  const FIRST_CLIENT: seq<TcpmuxSystem.Step> := [Dial, Answer, MuxShakes(0), Mux(Joins(1)), Mux(Acks), Mux(Puts(1))]

  lemma {:induction false} GoNext(s: Sys, steps: seq<TcpmuxSystem.Step>, step: TcpmuxSystem.Step)
    requires CanGo(s, steps) && Enabled(Go(s, steps), step)
    ensures CanGo(s, steps + [step]) && Go(s, steps + [step]) == Next(Go(s, steps), step)
    decreases |steps|
  {
    hide Enabled, Next;
    if steps == [] {
      Whole(Next(s, step));
      assert ([] + [step])[0] == step && ([] + [step])[1..] == [];
    } else {
      GoNext(Next(s, steps[0]), steps[1..], step);
      assert (steps + [step])[1..] == steps[1..] + [step];
    }
  }

  /** The mux side is connected, and its first client has been accepted. */
  ghost predicate Greeted(n: Node) {
    && n.wire.conn.Ready? && n.wire.debt == 0 && n.wire.streamPos == 0 && n.wire.streamKarma == GLOBAL_KARMA - 1
    && n.wire.pending == [] && n.wire.rstreamKarma == 0 && |n.wire.stream| == GLOBAL_KARMA
    && n.pool.writeQ == [0] && n.pool.karmaQ == [1] && |n.pool.all| == 2
    && n.pool.all[1].id == 1 && n.pool.all[1].rkarma == CLIENT_KARMA && !n.pool.all[1].rdead
  }

  lemma Greets(s: Sys)
    requires Start(s)
    ensures CanGo(s, FIRST_CLIENT[..4]) && Greeted(Go(s, FIRST_CLIENT[..4]).mux)
  {
    hide CanGo, Go;
    var f := FIRST_CLIENT;
    assert f[..0] == [] && f[..1] == f[..0] + [Dial] && f[..2] == f[..1] + [Answer];
    assert f[..3] == f[..2] + [MuxShakes(0)] && f[..4] == f[..3] + [Mux(Joins(1))];
    Whole(s);
    GoNext(s, f[..0], Dial);
    GoNext(s, f[..1], Answer);
    GoNext(s, f[..2], MuxShakes(0));
    GoNext(s, f[..3], Mux(Joins(1)));
  }

  /** Acknowledging the first client: one pair, and nobody is left on either list. */
  lemma OneNote(p: Pool)
    requires p.writeQ == [0] && p.karmaQ == [1] && |p.all| == 2
    requires p.all[1].id == 1 && p.all[1].rkarma == CLIENT_KARMA && !p.all[1].rdead
    ensures AckNotes(p, MAX_NOTES) == [Note(1, CLIENT_KARMA)] && Acknowledge(p).writeQ == []
  {
    var q := TakeNote(p);
    assert q.karmaQ == [];
    assert TakeNotes(q, MAX_NOTES - 1) == q && AckNotes(q, MAX_NOTES - 1) == [];
    assert TakeNotes(p, MAX_NOTES) == q;
  }

  lemma LeavesHalf(n: Node)
    requires Greeted(n)
    ensures CanStep(n, Acks) && CanStep(NodeState.Step(n, Acks), Puts(1))
    ensures HalfWritten(NodeState.Step(NodeState.Step(n, Acks), Puts(1)))
  {
    OneNote(n.pool);
    hide AckNotes, Acknowledge, Encode;
    assert GoodNote(Note(1, CLIENT_KARMA));
    var p := NextAck(n);
    assert p == Packet.Ack(0, [Note(1, CLIENT_KARMA)]);
    EncodeFields(p);
  }

  /** Half-written packets happen, whatever the two sides are fresh with. */
  lemma HalfWrittenHappens(s: Sys)
    requires Start(s)
    ensures CanGo(s, FIRST_CLIENT) && HalfWritten(Go(s, FIRST_CLIENT).mux)
  {
    hide CanGo, Go, Start, Greeted, HalfWritten, CanStep, NodeState.Step;
    var f := FIRST_CLIENT;
    assert f[..5] == f[..4] + [Mux(Acks)] && f == f[..5] + [Mux(Puts(1))];
    Greets(s);
    LeavesHalf(Go(s, f[..4]).mux);
    GoNext(s, f[..4], Mux(Acks));
    GoNext(s, f[..5], Mux(Puts(1)));
  }
}
