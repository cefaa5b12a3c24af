/**
 The stream side of one tcpmux endpoint: the packet being written, the replay ring and the debt,
 the packet being read, and the two counters of the global credit scheme. Each function is what one
 stretch of mainw, mainr or the handshake does between two system calls.
 */
module WireState {
  import opened NetBytes
  import opened Ring
  import opened Packets

  /** Down: no main connection. Dialing: header sent, peer position not read yet. Ready: handshake done. */
  datatype Conn = Down | Dialing | Ready

  /**
   The last four fields are history: the packets composed so far, the bytes passed to write_mainfd,
   the bytes mainr has read and the packets it has decoded. No guard and no real field depends on them.
   */
  datatype Wire = Wire(
    conn: Conn,
    pending: seq<byte>,
    streamKarma: int,
    stream: seq<byte>,
    streamPos: nat,
    debt: int,
    rin: seq<byte>,
    rpos: nat,
    rstreamPos: nat,
    rstreamKarma: int,
    sent: seq<Packet>,
    hist: seq<byte>,
    heard: seq<byte>,
    got: seq<Packet>)

  function Acked(p: Packet): int {
    if p.Ack? then p.total else 0
  }

  function AckTotal(ps: seq<Packet>): int {
    if ps == [] then 0 else AckTotal(ps[..|ps| - 1]) + Acked(ps[|ps| - 1])
  }

  /** `pos` brought back into the logical ring of GLOBAL_KARMA bytes, as the code does it. */
  function Wrap(pos: nat): nat {
    if pos >= GLOBAL_KARMA then pos - GLOBAL_KARMA else pos
  }

  /* ---- what the endpoint does ---- */

  predicate CanCompose(w: Wire, p: Packet) {
    w.conn.Ready? && w.pending == [] && GoodPacket(p) && (p.Ack? ==> p.total == w.rstreamKarma)
  }

  /** mainw fills wout; an acknowledgment takes all of rstream_karma. */
  function Compose(w: Wire, p: Packet): Wire
    requires CanCompose(w, p)
  {
    w.(pending := Encode(p), sent := w.sent + [p], rstreamKarma := if p.Ack? then 0 else w.rstreamKarma)
  }

  predicate CanPut(w: Wire, n: nat) {
    w.conn.Ready? && w.debt == 0 && 1 <= n <= |w.pending| && n <= w.streamKarma
  }

  /** write_mainfd when write() takes n bytes. */
  function Put(w: Wire, n: nat): Wire
    requires CanPut(w, n) && |w.stream| == GLOBAL_KARMA && w.streamPos < GLOBAL_KARMA && |w.pending| <= MESSAGE
  {
    var out := w.pending[..n];
    w.(pending := w.pending[n..], streamKarma := w.streamKarma - n,
       stream := Laid(w.stream, w.streamPos, out), streamPos := Wrap(w.streamPos + n),
       hist := w.hist + out)
  }

  /** Where the replay of a debt starts, and how far it may go before the ring wraps. */
  function RepayFrom(w: Wire): int {
    if w.streamPos < w.debt then w.streamPos - w.debt + GLOBAL_KARMA else w.streamPos - w.debt
  }

  function RepayRoom(w: Wire): int {
    if w.streamPos < w.debt then w.debt - w.streamPos else w.debt
  }

  predicate CanRepay(w: Wire, n: nat) {
    w.conn.Ready? && 0 < w.debt < GLOBAL_KARMA && w.streamPos < GLOBAL_KARMA && 1 <= n <= RepayRoom(w)
  }

  function Repayment(w: Wire, n: nat): seq<byte>
    requires CanRepay(w, n) && |w.stream| == GLOBAL_KARMA
  {
    w.stream[RepayFrom(w)..RepayFrom(w) + n]
  }

  function Repay(w: Wire, n: nat): Wire
    requires CanRepay(w, n)
  {
    w.(debt := w.debt - n)
  }

  /** mainr refuses a header whose size field is out of range. */
  predicate BadSize(w: Wire)
    requires |w.rin| == MESSAGE
  {
    w.rpos >= HEADER && !(1 <= SizeField(w.rin) <= VPACKETSIZE)
  }

  /** The count mainr passes to read(): the rest of the header, then the rest of the body. */
  function ReadLimit(w: Wire): int
    requires |w.rin| == MESSAGE
  {
    (if w.rpos < HEADER then HEADER else HEADER + SizeField(w.rin)) - w.rpos
  }

  predicate CanGet(w: Wire, bs: seq<byte>) {
    && w.conn.Ready?
    && |w.rin| == MESSAGE && !BadSize(w)
    && 1 <= |bs| <= ReadLimit(w)
  }

  /** read() delivered bs: the read buffer and the counters. */
  function Get(w: Wire, bs: seq<byte>): Wire
    requires CanGet(w, bs)
  {
    w.(rin := w.rin[..w.rpos] + bs + w.rin[w.rpos + |bs|..], rpos := w.rpos + |bs|,
       rstreamPos := Wrap(w.rstreamPos + |bs|), rstreamKarma := w.rstreamKarma + |bs|,
       heard := w.heard + bs)
  }

  /** The read buffer holds a whole packet. */
  predicate Complete(w: Wire) {
    |w.rin| == MESSAGE && w.rpos > HEADER && !BadSize(w) && w.rpos == HEADER + SizeField(w.rin)
  }

  /** A whole packet is taken out and its acknowledged total credited. */
  function Open(w: Wire): Wire
    requires Complete(w)
  {
    var p := Decode(w.rin);
    w.(rpos := 0, streamKarma := w.streamKarma + Acked(p), got := w.got + [p])
  }

  /** The check in read_ack that ends the connection with "Bad global karma acknowledgment". */
  predicate BadKarma(w: Wire) {
    w.streamKarma < 0 || w.streamKarma > GLOBAL_KARMA
  }

  /** The debt mainr computes from the position the peer sent, whatever that is. */
  function Debt(streamPos: nat, peerPos: int): int {
    var d := Wrap32(streamPos - peerPos);
    if d < 0 then d + GLOBAL_KARMA else d
  }

  /** The debt is one that the ring can pay. */
  predicate GoodPosition(streamPos: nat, peerPos: int) {
    IsInt32(peerPos) && 0 <= Debt(streamPos, peerPos) < GLOBAL_KARMA
  }

  function Shake(w: Wire, peerPos: int): Wire {
    w.(debt := Debt(w.streamPos, peerPos), conn := Ready)
  }

  function Fresh(stream: seq<byte>, rin: seq<byte>): Wire {
    Wire(Down, [], GLOBAL_KARMA - 1, stream, 0, 0, rin, 0, 0, 0, [], [], [], [])
  }

  /* ---- what every stretch keeps ---- */

  /** The ring holds the last GLOBAL_KARMA bytes of the history, byte k at k mod GLOBAL_KARMA. */
  ghost predicate RingHolds(stream: seq<byte>, hist: seq<byte>) {
    && |stream| == GLOBAL_KARMA
    && forall k {:trigger hist[k]} | 0 <= k < |hist| && |hist| - k <= GLOBAL_KARMA ::
        stream[k % GLOBAL_KARMA] == hist[k]
  }

  ghost predicate GoodPackets(ps: seq<Packet>) {
    forall i | 0 <= i < |ps| :: GoodPacket(ps[i])
  }

  /** What has been written and what is pending make up the packets composed. */
  ghost predicate Framed(w: Wire) {
    && GoodPackets(w.sent)
    && w.hist + w.pending == EncodeAll(w.sent)
    && |w.pending| <= MESSAGE
  }

  ghost predicate Replayable(w: Wire) {
    && RingHolds(w.stream, w.hist)
    && w.streamPos == |w.hist| % GLOBAL_KARMA
    && 0 <= w.debt < GLOBAL_KARMA
  }

  /** The read buffer holds the last rpos bytes read. */
  ghost predicate Buffered(w: Wire) {
    && |w.rin| == MESSAGE && w.rpos <= MESSAGE
    && w.rpos <= |w.heard| && w.heard[|w.heard| - w.rpos..] == w.rin[..w.rpos]
  }

  /** The two counters of the global credit scheme. */
  ghost predicate Counted(w: Wire) {
    && w.rstreamPos == |w.heard| % GLOBAL_KARMA
    && |w.heard| == AckTotal(w.sent) + w.rstreamKarma
    && 0 <= w.rstreamKarma
    && w.streamKarma == GLOBAL_KARMA - 1 - |w.hist| + AckTotal(w.got)
    && 0 <= w.streamKarma
  }

  ghost predicate Sound(w: Wire) {
    Framed(w) && Replayable(w) && Buffered(w) && Counted(w)
  }

  lemma RingKept(stream: seq<byte>, hist: seq<byte>, data: seq<byte>)
    requires RingHolds(stream, hist) && |data| <= GLOBAL_KARMA
    ensures RingHolds(Laid(stream, |hist| % GLOBAL_KARMA, data), hist + data)
  {
    var pos := |hist| % GLOBAL_KARMA;
    var after := Laid(stream, pos, data);
    forall k | 0 <= k < |hist + data| && |hist + data| - k <= GLOBAL_KARMA
      ensures after[k % GLOBAL_KARMA] == (hist + data)[k]
    {
      if k < |hist| {
        assert Ahead(GLOBAL_KARMA, pos, k % GLOBAL_KARMA) == GLOBAL_KARMA - (|hist| - k);
      } else {
        assert Ahead(GLOBAL_KARMA, pos, k % GLOBAL_KARMA) == k - |hist|;
      }
    }
  }

  lemma AckTotalAppend(ps: seq<Packet>, p: Packet)
    ensures AckTotal(ps + [p]) == AckTotal(ps) + Acked(p)
  {
    assert (ps + [p])[..|ps|] == ps;
  }

  lemma FreshIsSound(stream: seq<byte>, rin: seq<byte>)
    requires |stream| == GLOBAL_KARMA && |rin| == MESSAGE
    ensures Sound(Fresh(stream, rin))
  {
  }

  lemma ComposeSound(w: Wire, p: Packet)
    requires Sound(w) && CanCompose(w, p)
    ensures Sound(Compose(w, p))
  {
    ComposeFramed(w, p);
    AckTotalAppend(w.sent, p);
  }

  lemma ComposeFramed(w: Wire, p: Packet)
    requires Framed(w) && CanCompose(w, p)
    ensures Framed(Compose(w, p))
  {
    EncodeAllAppend(w.sent, [p]);
    assert [p][1..] == [];
    assert EncodeAll([p]) == Encode(p) + [];
    assert w.hist == EncodeAll(w.sent);
  }

  lemma PutSound(w: Wire, n: nat)
    requires Sound(w) && CanPut(w, n)
    ensures Sound(Put(w, n))
  {
    PutFramed(w, n);
    PutReplayable(w, n);
  }

  lemma PutFramed(w: Wire, n: nat)
    requires Framed(w) && Replayable(w) && CanPut(w, n)
    ensures Framed(Put(w, n))
  {
    hide EncodeAll, Laid, RingHolds, GoodPackets;
    assert w.hist + w.pending == (w.hist + w.pending[..n]) + w.pending[n..];
  }

  lemma PutReplayable(w: Wire, n: nat)
    requires Replayable(w) && |w.pending| <= MESSAGE && CanPut(w, n)
    ensures Replayable(Put(w, n))
  {
    RingKept(w.stream, w.hist, w.pending[..n]);
  }

  /* ---- positions that no peer of this program sends ---- */

  /** What mainw would do with the debt of any position: nothing, repay, repay a lap more, or leave the ring. */
  lemma PositionCases(streamPos: nat, peerPos: int)
    requires streamPos < GLOBAL_KARMA && IsInt32(peerPos)
    ensures var d := Debt(streamPos, peerPos);
      && (d < 0 <==> streamPos + GLOBAL_KARMA < peerPos || peerPos <= streamPos - 0x8000_0000)
      && (0 <= d < GLOBAL_KARMA <==> streamPos - GLOBAL_KARMA < peerPos <= streamPos + GLOBAL_KARMA)
      && (GLOBAL_KARMA <= d <= streamPos + GLOBAL_KARMA <==> 0 <= peerPos + GLOBAL_KARMA <= streamPos)
      && (streamPos + GLOBAL_KARMA < d <==> streamPos - 0x8000_0000 < peerPos < 0 - GLOBAL_KARMA)
  {
  }

  /** A position that can be paid counts modulo GLOBAL_KARMA. */
  lemma GoodIsModulo(streamPos: nat, peerPos: int)
    requires streamPos < GLOBAL_KARMA && GoodPosition(streamPos, peerPos)
    ensures Debt(streamPos, peerPos) == (streamPos - peerPos) % GLOBAL_KARMA
  {
    PositionCases(streamPos, peerPos);
  }

  /** The positions that can be paid wherever this side is; GLOBAL_KARMA is as good as 0. */
  lemma AlwaysGood(peerPos: int)
    requires IsInt32(peerPos)
    ensures 0 <= peerPos <= GLOBAL_KARMA <==>
        forall streamPos: nat | streamPos < GLOBAL_KARMA :: GoodPosition(streamPos, peerPos)
  {
    if 0 <= peerPos <= GLOBAL_KARMA {
      forall streamPos: nat | streamPos < GLOBAL_KARMA ensures GoodPosition(streamPos, peerPos) {
        PositionCases(streamPos, peerPos);
      }
    } else {
      var worst: nat := if peerPos < 0 then GLOBAL_KARMA - 1 else 0;
      PositionCases(worst, peerPos);
      assert !GoodPosition(worst, peerPos);
    }
  }

  /** The slice that is replayed lies in the ring exactly if the debt is not more than a lap and the position. */
  lemma SliceInside(w: Wire)
    requires w.streamPos < GLOBAL_KARMA && 0 < w.debt
    ensures 0 <= RepayFrom(w) && RepayFrom(w) + RepayRoom(w) <= GLOBAL_KARMA <==> w.debt <= w.streamPos + GLOBAL_KARMA
  {
  }

  /** A position for each way to fail: a read before the ring, a lap too much, and nothing repaid. */
  lemma BadPositionsExist(w: Wire)
    requires w.conn.Dialing?
    ensures w.streamPos == 0 ==> RepayFrom(Shake(w, -1 - GLOBAL_KARMA)) == -1
    ensures w.streamPos == GLOBAL_KARMA - 1 ==> Shake(w, -1).debt == GLOBAL_KARMA
    ensures w.streamPos == 0 ==> Shake(w, GLOBAL_KARMA + 1).debt == -1
  {
  }

  /** The bytes repaid are the next undelivered ones of the history, on either side of the wrap. */
  lemma RepaymentIsHistory(w: Wire, n: nat)
    requires Replayable(w) && CanRepay(w, n) && w.debt <= |w.hist|
    ensures n <= w.debt && Repayment(w, n) == w.hist[|w.hist| - w.debt..][..n]
  {
    var from := |w.hist| - w.debt;
    forall k | 0 <= k < n
      ensures Repayment(w, n)[k] == w.hist[from + k]
    {
      assert (from + k) % GLOBAL_KARMA == RepayFrom(w) + k;
    }
  }

  lemma RepaySound(w: Wire, n: nat)
    requires Sound(w) && CanRepay(w, n)
    ensures Sound(Repay(w, n))
  {
  }

  lemma GetSound(w: Wire, bs: seq<byte>)
    requires Sound(w) && CanGet(w, bs)
    ensures Sound(Get(w, bs))
  {
    GetBuffered(w, bs);
    GetCounted(w, bs);
    hide Buffered, Counted, RingHolds, EncodeAll;
  }

  lemma GetCounted(w: Wire, bs: seq<byte>)
    requires Counted(w) && CanGet(w, bs)
    ensures Counted(Get(w, bs))
  {
  }

  lemma GetBuffered(w: Wire, bs: seq<byte>)
    requires Buffered(w) && CanGet(w, bs)
    ensures Buffered(Get(w, bs))
  {
    var r := Get(w, bs);
    assert r.rin[..r.rpos] == w.rin[..w.rpos] + bs;
    assert r.heard[|r.heard| - r.rpos..] == w.heard[|w.heard| - w.rpos..] + bs;
  }

  lemma CreditLeft(w: Wire)
    requires Sound(w)
    ensures 0 <= w.streamKarma
  {
  }

  lemma OpenSound(w: Wire)
    requires Sound(w) && Complete(w) && w.streamKarma + Acked(Decode(w.rin)) >= 0
    ensures Sound(Open(w))
  {
    hide Decode;
    AckTotalAppend(w.got, Decode(w.rin));
  }
}
