/**
 Two endpoints and the connections between them. A connection may break at any time and lose what
 is in flight; the next one starts with an exchange of positions. One direction of this is a Half;
 the other direction is the same predicate with the endpoints exchanged.
 */
module WireProtocol {
  import opened NetBytes
  import opened Ring
  import opened Packets
  import opened WireState

  /** x's bytes as y has them: a prefix read, the next ones in flight, decoded in step with the composing. */
  ghost predicate Piped(x: Wire, y: Wire, flight: seq<byte>) {
    && |y.heard| + |flight| <= |x.hist|
    && y.heard == x.hist[..|y.heard|]
    && flight == x.hist[|y.heard|..|y.heard| + |flight|]
    && InStep(x, y)
  }

  /** y has decoded a prefix of the packets x composed and holds a part of the next one. */
  ghost predicate InStep(x: Wire, y: Wire) {
    && GoodPackets(x.sent)
    && |y.got| <= |x.sent|
    && y.got == x.sent[..|y.got|]
    && |y.rin| == MESSAGE && y.rpos <= MESSAGE
    && y.heard == EncodeAll(y.got) + y.rin[..y.rpos]
    && (y.rpos > 0 ==> |y.got| < |x.sent| && y.rpos <= |Encode(x.sent[|y.got|])|)
  }

  /** While the two share a connection, what is neither read nor in flight is exactly x's debt. */
  ghost predicate Settled(x: Wire, y: Wire, linked: bool, flight: seq<byte>, peerPos: nat) {
    linked ==>
      match x.conn
      case Down => false
      case Dialing => flight == [] && peerPos == |y.heard| % GLOBAL_KARMA
      case Ready => |y.heard| + |flight| + x.debt == |x.hist|
  }

  ghost predicate Half(x: Wire, y: Wire, linked: bool, flight: seq<byte>, peerPos: nat) {
    Piped(x, y, flight) && Settled(x, y, linked, flight, peerPos)
  }

  /* ---- framing ---- */

  lemma EncodeAllSplit(ps: seq<Packet>, k: nat)
    requires GoodPackets(ps) && k <= |ps|
    ensures EncodeAll(ps) == EncodeAll(ps[..k]) + EncodeAll(ps[k..])
  {
    assert ps == ps[..k] + ps[k..];
    EncodeAllAppend(ps[..k], ps[k..]);
  }

  lemma EncodeAllNext(ps: seq<Packet>, k: nat)
    requires GoodPackets(ps) && k < |ps|
    ensures EncodeAll(ps[k..]) == Encode(ps[k]) + EncodeAll(ps[k + 1..])
  {
    assert ps[k..][1..] == ps[k + 1..];
  }

  lemma PrefixCancel(a: seq<byte>, b: seq<byte>, c: seq<byte>)
    requires a + b <= a + c
    ensures b <= c
  {
    assert (a + c)[..|a + b|] == a + b;
    assert (a + c)[|a|..|a + b|] == b;
    assert (a + c)[|a|..|a + b|] == c[..|b|];
  }

  /** The part of a packet y would hold after reading more of x's bytes starts the rest of x's packets. */
  lemma PartIsPrefix(x: Wire, y: Wire, flight: seq<byte>, k: nat)
    requires Framed(x) && Piped(x, y, flight) && k <= |flight|
    ensures y.rin[..y.rpos] + flight[..k] <= EncodeAll(x.sent[|y.got|..])
  {
    var part := y.rin[..y.rpos] + flight[..k];
    assert EncodeAll(y.got) + part <= EncodeAll(x.sent) by {
      ReadSoFar(x, y, flight, k);
    }
    EncodeAllSplit(x.sent, |y.got|);
    PrefixCancel(EncodeAll(y.got), part, EncodeAll(x.sent[|y.got|..]));
  }

  lemma ReadSoFar(x: Wire, y: Wire, flight: seq<byte>, k: nat)
    requires Framed(x) && Piped(x, y, flight) && k <= |flight|
    ensures EncodeAll(y.got) + (y.rin[..y.rpos] + flight[..k]) <= EncodeAll(x.sent)
  {
    InFlightNext(x.hist, |y.heard|, |flight|, k);
    Joined(EncodeAll(y.got), y.rin[..y.rpos], flight[..k], x.hist[..|y.heard| + k]);
    Prefix(x.hist, x.pending, |y.heard| + k);
  }

  lemma InFlightNext(hist: seq<byte>, n: nat, m: nat, k: nat)
    requires n + m <= |hist| && k <= m
    ensures hist[..n] + hist[n..n + m][..k] == hist[..n + k]
  {
  }

  lemma Joined(a: seq<byte>, b: seq<byte>, c: seq<byte>, d: seq<byte>)
    requires (a + b) + c == d
    ensures a + (b + c) == d
  {
  }

  lemma Prefix(a: seq<byte>, b: seq<byte>, n: nat)
    requires n <= |a|
    ensures a[..n] <= a + b
  {
  }

  /** Once the header is in, the size field is that of the packet being read. */
  lemma HeaderTells(x: Wire, y: Wire, flight: seq<byte>)
    requires Framed(x) && Piped(x, y, flight)
    ensures y.rpos >= HEADER ==> SizeField(y.rin) == |Body(x.sent[|y.got|])|
    ensures !BadSize(y)
  {
    hide Encode, EncodeAll, GoodPacket;
    if y.rpos >= HEADER {
      var p, part := x.sent[|y.got|], y.rin[..y.rpos];
      assert part <= Encode(p) + EncodeAll(x.sent[|y.got| + 1..]) by {
        PartIsPrefix(x, y, flight, 0);
        EncodeAllNext(x.sent, |y.got|);
        assert part + flight[..0] == part;
      }
      HeaderOf(p, part, EncodeAll(x.sent[|y.got| + 1..]));
      assert y.rin[4..8] == part[4..8];
    }
  }

  lemma HeaderOf(p: Packet, part: seq<byte>, rest: seq<byte>)
    requires GoodPacket(p) && HEADER <= |part| && part <= Encode(p) + rest
    ensures GetInt(part[4..8]) == |Body(p)|
  {
    assert part[4..8] == Encode(p)[4..8] == PutInt(|Body(p)|);
    PutGetInt(|Body(p)|);
  }

  lemma SomethingLeft(ps: seq<Packet>, k: nat, part: seq<byte>)
    requires GoodPackets(ps) && k <= |ps| && part != [] && part <= EncodeAll(ps[k..])
    ensures k < |ps|
  {
  }

  /** A read never goes past the packet being read. */
  lemma ReadStaysInside(x: Wire, y: Wire, flight: seq<byte>, k: nat)
    requires Framed(x) && Piped(x, y, flight) && k <= |flight| && CanGet(y, flight[..k])
    ensures |y.got| < |x.sent| && y.rpos + k <= |Encode(x.sent[|y.got|])|
  {
    PartIsPrefix(x, y, flight, k);
    SomethingLeft(x.sent, |y.got|, y.rin[..y.rpos] + flight[..k]);
    HeaderTells(x, y, flight);
  }

  /** However the stream is cut into reads, what mainr decodes is the next packet mainw composed. */
  lemma NextPacket(x: Wire, y: Wire, flight: seq<byte>)
    requires Framed(x) && Piped(x, y, flight) && Complete(y)
    ensures |y.got| < |x.sent|
    ensures y.rin[..y.rpos] == Encode(x.sent[|y.got|])
    ensures Decode(y.rin) == x.sent[|y.got|]
  {
    hide Decode, Encode, EncodeAll;
    PartIsPrefix(x, y, flight, 0);
    assert y.rin[..y.rpos] + flight[..0] == y.rin[..y.rpos];
    HeaderTells(x, y, flight);
    var p := x.sent[|y.got|];
    EncodeAllNext(x.sent, |y.got|);
    SamePrefix(y.rin[..y.rpos], Encode(p), EncodeAll(x.sent[|y.got| + 1..]));
    PacketRoundTrip(p, y.rin);
  }

  lemma SamePrefix(part: seq<byte>, a: seq<byte>, b: seq<byte>)
    requires part <= a + b && |part| == |a|
    ensures part == a
  {
    assert part == (a + b)[..|a|];
  }

  /* ---- one direction, step by step ---- */

  lemma ComposeHalf(x: Wire, y: Wire, p: Packet, linked: bool, flight: seq<byte>, pos: nat)
    requires Half(x, y, linked, flight, pos) && CanCompose(x, p)
    ensures Half(Compose(x, p), y, linked, flight, pos)
  {
    var z := Compose(x, p);
    assert z.sent[..|y.got|] == x.sent[..|y.got|];
  }

  /** write_mainfd: the bytes join those in flight, or are lost with a connection the peer has left. */
  lemma PutHalf(x: Wire, y: Wire, n: nat, linked: bool, flight: seq<byte>, pos: nat)
    requires Sound(x) && Half(x, y, linked, flight, pos) && CanPut(x, n)
    ensures Half(Put(x, n), y, linked, if linked then flight + x.pending[..n] else flight, pos)
  {
    hide EncodeAll, Laid, Encode, GoodPacket, RingHolds, GoodPackets, Buffered, Counted, AckTotal;
    InFlightGrows(x.hist, |y.heard|, |flight|, x.pending[..n]);
  }

  lemma InFlightGrows(hist: seq<byte>, n: nat, m: nat, more: seq<byte>)
    requires n + m <= |hist|
    ensures (hist + more)[..n] == hist[..n]
    ensures (hist + more)[n..n + m] == hist[n..n + m]
    ensures n + m == |hist| ==> hist[n..n + m] + more == (hist + more)[n..n + m + |more|]
  {
  }

  /** The replay loop: after a reconnect the bytes that go out are exactly the undelivered ones, in order. */
  lemma RepayHalf(x: Wire, y: Wire, n: nat, linked: bool, flight: seq<byte>, pos: nat)
    requires Sound(x) && Half(x, y, linked, flight, pos) && CanRepay(x, n)
    ensures Half(Repay(x, n), y, linked, if linked then flight + Repayment(x, n) else flight, pos)
  {
    hide Repayment, EncodeAll, Encode, GoodPacket;
    if linked {
      RepaymentIsHistory(x, n);
      var at := |y.heard| + |flight|;
      assert Repayment(x, n) == x.hist[at..at + n];
      assert flight + x.hist[at..at + n] == x.hist[|y.heard|..at + n];
    }
  }

  lemma GetHalf(x: Wire, y: Wire, k: nat, linked: bool, flight: seq<byte>, pos: nat)
    requires Framed(x) && Half(x, y, linked, flight, pos) && k <= |flight| && CanGet(y, flight[..k])
    ensures Half(x, Get(y, flight[..k]), linked, flight[k..], pos)
  {
    hide Get, InStep, Encode, EncodeAll;
    ReadStaysInside(x, y, flight, k);
    GetPiped(x, y, k, flight);
    GetInStep(x, y, flight[..k]);
  }

  lemma GetPiped(x: Wire, y: Wire, k: nat, flight: seq<byte>)
    requires Piped(x, y, flight) && k <= |flight| && CanGet(y, flight[..k])
    ensures Get(y, flight[..k]).heard == x.hist[..|y.heard| + k]
    ensures flight[k..] == x.hist[|y.heard| + k..|y.heard| + |flight|]
  {
    hide InStep, BadSize, ReadLimit;
    InFlightNext(x.hist, |y.heard|, |flight|, k);
    InFlightRest(x.hist, |y.heard|, |flight|, k);
  }

  lemma InFlightRest(hist: seq<byte>, n: nat, m: nat, k: nat)
    requires n + m <= |hist| && k <= m
    ensures hist[n..n + m][k..] == hist[n + k..n + m]
  {
  }

  lemma GetInStep(x: Wire, y: Wire, bs: seq<byte>)
    requires InStep(x, y) && CanGet(y, bs)
    requires |y.got| < |x.sent| && y.rpos + |bs| <= |Encode(x.sent[|y.got|])|
    ensures InStep(x, Get(y, bs))
  {
    hide Encode, EncodeAll, GoodPacket;
    Joined(EncodeAll(y.got), y.rin[..y.rpos], bs, y.heard + bs);
    ReceivedPart(y.rin, y.rpos, bs);
  }

  lemma ReceivedPart(rin: seq<byte>, rpos: nat, bs: seq<byte>)
    requires rpos + |bs| <= |rin|
    ensures (rin[..rpos] + bs + rin[rpos + |bs|..])[..rpos + |bs|] == rin[..rpos] + bs
  {
  }

  lemma OpenHalf(x: Wire, y: Wire, linked: bool, flight: seq<byte>, pos: nat)
    requires Framed(x) && Half(x, y, linked, flight, pos) && Complete(y)
    ensures Half(x, Open(y), linked, flight, pos)
    ensures |y.got| < |x.sent| && Decode(y.rin) == x.sent[|y.got|]
  {
    hide Encode, EncodeAll, GoodPacket, Decode;
    NextPacket(x, y, flight);
    var z := Open(y);
    EncodeAllSnoc(y.got, x.sent[|y.got|]);
    assert z.got == x.sent[..|y.got| + 1];
    assert z.rin[..0] == [];
  }

  lemma EncodeAllSnoc(ps: seq<Packet>, p: Packet)
    requires GoodPackets(ps) && GoodPacket(p)
    ensures EncodeAll(ps + [p]) == EncodeAll(ps) + Encode(p)
  {
    EncodeAllAppend(ps, [p]);
    assert [p][1..] == [];
    assert EncodeAll([p]) == Encode(p) + [];
  }

  /** Two positions modulo GLOBAL_KARMA tell the distance, if it is less than GLOBAL_KARMA. */
  lemma DebtIsExact(written: nat, read: nat)
    requires read <= written < read + GLOBAL_KARMA
    ensures Debt(written % GLOBAL_KARMA, read % GLOBAL_KARMA) == written - read
  {
  }

  lemma {:induction false} AckTotalPrefix(ps: seq<Packet>, k: nat)
    requires GoodPackets(ps) && k <= |ps|
    ensures 0 <= AckTotal(ps[..k]) <= AckTotal(ps)
    decreases |ps|
  {
    if k == |ps| {
      assert ps[..k] == ps;
      if k > 0 {
        assert GoodPacket(ps[k - 1]);
        AckTotalPrefix(ps[..k - 1], k - 1);
        assert ps[..k - 1][..k - 1] == ps[..k - 1];
      }
    } else {
      assert GoodPacket(ps[|ps| - 1]);
      AckTotalPrefix(ps[..|ps| - 1], k);
      assert ps[..|ps| - 1][..k] == ps[..k];
    }
  }

  /**
   Conservation of the global credit: what x may still write, what y has not read, what y owes and
   what y's unread acknowledgments carry always add up to GLOBAL_KARMA - 1.
   */
  lemma GlobalCredit(x: Wire, y: Wire, toY: seq<byte>, toX: seq<byte>)
    requires Sound(x) && Sound(y) && Piped(x, y, toY) && Piped(y, x, toX)
    ensures x.streamKarma + (|x.hist| - |y.heard|) + y.rstreamKarma + (AckTotal(y.sent) - AckTotal(x.got)) ==
        GLOBAL_KARMA - 1
    ensures AckTotal(x.got) <= AckTotal(y.sent)
    ensures 0 <= x.streamKarma < GLOBAL_KARMA && 0 <= y.rstreamKarma < GLOBAL_KARMA
  {
    AckTotalPrefix(y.sent, |x.got|);
  }

  /* ---- connections: how they come and go ---- */

  /**
   What lies between the endpoints. `linked` is true while both use the same connection; `toDemux`
   and `toMux` are the bytes either side can still read from the connection it uses; `muxPos` and
   `demuxPos` are the positions in the last headers sent.
   */
  datatype Link = Link(linked: bool, toDemux: seq<byte>, toMux: seq<byte>, muxPos: nat, demuxPos: nat)

  ghost predicate Coupled(mux: Wire, demux: Wire, l: Link) {
    && Sound(mux) && Sound(demux)
    && Half(mux, demux, l.linked, l.toDemux, l.demuxPos)
    && Half(demux, mux, l.linked, l.toMux, l.muxPos)
    && (mux.conn.Dialing? ==> l.muxPos == |mux.heard| % GLOBAL_KARMA)
  }

  lemma ConnIsFree(w: Wire, conn: Conn, debt: int)
    requires Sound(w) && 0 <= debt < GLOBAL_KARMA
    ensures Sound(w.(conn := conn, debt := debt))
  {
  }

  lemma ConnInStep(x: Wire, y: Wire, conn: Conn, debt: int)
    requires InStep(x, y)
    ensures InStep(x.(conn := conn, debt := debt), y)
    ensures InStep(x, y.(conn := conn, debt := debt))
  {
  }

  lemma KeptFlight(hist: seq<byte>, n: nat, m: nat, kept: nat)
    requires n + m <= |hist| && kept <= m
    ensures hist[n..n + m][..kept] == hist[n..n + kept]
    ensures hist[n..n] == []
  {
  }

  /** Both directions after a change of one endpoint's connection state, debt, and what is in flight. */
  lemma Reconnected(mux: Wire, demux: Wire, l: Link, mux': Wire, demux': Wire, toDemux: nat, toMux: nat)
    requires Coupled(mux, demux, l)
    requires 0 <= mux'.debt < GLOBAL_KARMA && 0 <= demux'.debt < GLOBAL_KARMA
    requires mux' == mux.(conn := mux'.conn, debt := mux'.debt)
    requires demux' == demux.(conn := demux'.conn, debt := demux'.debt)
    requires toDemux <= |l.toDemux| && toMux <= |l.toMux|
    ensures Sound(mux') && Sound(demux')
    ensures Piped(mux', demux', l.toDemux[..toDemux]) && Piped(demux', mux', l.toMux[..toMux])
    ensures l.toDemux[..0] == [] && l.toMux[..0] == []
  {
    hide Sound, InStep;
    ConnIsFree(mux, mux'.conn, mux'.debt);
    ConnIsFree(demux, demux'.conn, demux'.debt);
    ConnInStep(mux, demux, mux'.conn, mux'.debt);
    ConnInStep(mux', demux, demux'.conn, demux'.debt);
    ConnInStep(demux, mux, mux'.conn, mux'.debt);
    ConnInStep(demux, mux', demux'.conn, demux'.debt);
    KeptFlight(mux.hist, |demux.heard|, |l.toDemux|, toDemux);
    KeptFlight(demux.hist, |mux.heard|, |l.toMux|, toMux);
  }

  lemma SoundPositions(w: Wire)
    requires Sound(w)
    ensures w.rstreamPos == |w.heard| % GLOBAL_KARMA && w.streamPos < GLOBAL_KARMA && 0 <= w.debt < GLOBAL_KARMA
  {
  }

  lemma WholeFlight(f: seq<byte>)
    ensures f[..|f|] == f
  {
  }

  /** initiate_main_connect and write_mux_header on the mux side. */
  lemma DialKeeps(mux: Wire, demux: Wire, l: Link)
    requires Coupled(mux, demux, l) && mux.conn.Down?
    ensures Coupled(mux.(conn := Dialing), demux, l.(muxPos := mux.rstreamPos))
  {
    hide Sound, Piped, InStep;
    SoundPositions(mux);
    SoundPositions(demux);
    Reconnected(mux, demux, l, mux.(conn := Dialing), demux, |l.toDemux|, |l.toMux|);
    WholeFlight(l.toDemux);
    WholeFlight(l.toMux);
  }

  /** The demux side reads the key, drops its old connection and answers with its own position. */
  lemma AcceptKeeps(mux: Wire, demux: Wire, l: Link)
    requires Coupled(mux, demux, l) && mux.conn.Dialing? && !l.linked && !demux.conn.Dialing?
    ensures Coupled(mux, demux.(conn := Dialing), Link(true, [], [], l.muxPos, demux.rstreamPos))
  {
    hide Sound, Piped, InStep;
    SoundPositions(mux);
    SoundPositions(demux);
    Reconnected(mux, demux, l, mux, demux.(conn := Dialing), 0, 0);
  }

  /** The demux side takes up a dial that the mux side has given up meanwhile. */
  lemma StaleAcceptKeeps(mux: Wire, demux: Wire, l: Link, pos: int, kept: nat)
    requires Coupled(mux, demux, l) && !demux.conn.Dialing? && GoodPosition(demux.streamPos, pos)
    requires kept <= |l.toMux|
    ensures Coupled(mux, Shake(demux, pos), Link(false, [], l.toMux[..kept], l.muxPos, demux.rstreamPos))
  {
    hide Sound, Piped, InStep;
    SoundPositions(mux);
    SoundPositions(demux);
    Reconnected(mux, demux, l, mux, Shake(demux, pos), 0, kept);
  }

  /** The positions exchanged on reconnect tell the debt exactly. */
  lemma MuxShakeExact(mux: Wire, demux: Wire, l: Link)
    requires Coupled(mux, demux, l) && mux.conn.Dialing? && l.linked
    ensures Shake(mux, l.demuxPos).debt == |mux.hist| - |demux.heard|
  {
    GlobalCredit(mux, demux, l.toDemux, l.toMux);
    DebtIsExact(|mux.hist|, |demux.heard|);
  }

  lemma DemuxShakeExact(mux: Wire, demux: Wire, l: Link)
    requires Coupled(mux, demux, l) && demux.conn.Dialing? && l.linked
    ensures Shake(demux, l.muxPos).debt == |demux.hist| - |mux.heard|
  {
    GlobalCredit(demux, mux, l.toMux, l.toDemux);
    DebtIsExact(|demux.hist|, |mux.heard|);
  }

  /** The mux side reads the demux side's position. On a connection already lost it may be any old one. */
  lemma MuxShakeKeeps(mux: Wire, demux: Wire, l: Link, pos: int)
    requires Coupled(mux, demux, l) && mux.conn.Dialing? && GoodPosition(mux.streamPos, pos)
    requires l.linked ==> pos == l.demuxPos
    ensures Coupled(Shake(mux, pos), demux, l)
    ensures l.linked ==> Shake(mux, pos).debt == |mux.hist| - |demux.heard|
  {
    hide Sound, Piped, InStep;
    SoundPositions(mux);
    SoundPositions(demux);
    WholeFlight(l.toDemux);
    WholeFlight(l.toMux);
    Reconnected(mux, demux, l, Shake(mux, pos), demux, |l.toDemux|, |l.toMux|);
    if l.linked {
      MuxShakeExact(mux, demux, l);
    }
  }

  lemma DemuxShakeKeeps(mux: Wire, demux: Wire, l: Link)
    requires Coupled(mux, demux, l) && demux.conn.Dialing? && l.linked
    ensures Coupled(mux, Shake(demux, l.muxPos), l)
    ensures Shake(demux, l.muxPos).debt == |demux.hist| - |mux.heard|
  {
    hide Sound, Piped, InStep;
    SoundPositions(mux);
    SoundPositions(demux);
    WholeFlight(l.toDemux);
    WholeFlight(l.toMux);
    DemuxShakeExact(mux, demux, l);
    Reconnected(mux, demux, l, mux, Shake(demux, l.muxPos), |l.toDemux|, |l.toMux|);
  }

  /** The mux side loses its connection; the demux side may still read some of what was in flight. */
  lemma MuxBreakKeeps(mux: Wire, demux: Wire, l: Link, kept: nat)
    requires Coupled(mux, demux, l) && kept <= |l.toDemux|
    ensures Coupled(mux.(conn := Down), demux, l.(linked := false, toDemux := l.toDemux[..kept], toMux := []))
  {
    hide Sound, Piped, InStep;
    SoundPositions(mux);
    SoundPositions(demux);
    Reconnected(mux, demux, l, mux.(conn := Down), demux, kept, 0);
  }

  lemma DemuxBreakKeeps(mux: Wire, demux: Wire, l: Link, kept: nat)
    requires Coupled(mux, demux, l) && kept <= |l.toMux|
    ensures Coupled(mux, demux.(conn := Down), l.(linked := false, toMux := l.toMux[..kept], toDemux := []))
  {
    hide Sound, Piped, InStep;
    SoundPositions(mux);
    SoundPositions(demux);
    Reconnected(mux, demux, l, mux, demux.(conn := Down), 0, kept);
  }
}
