/**
 The stream fields of mux_context: the replay ring, the packet being written, the packet being read
 and the global credit.
 */
module MainStreams {
  import opened NetBytes
  import opened Ring
  import opened Packets
  import opened WireState

  class MainStream {
    var conn: Conn
    const stream: array<byte>
    var streamPos: nat
    var streamKarma: int
    var streamDebt: int
    const rin: array<byte>
    var rpos: nat
    var rstreamPos: nat
    var rstreamKarma: int
    /** `wbusy` is wout.id != 0. */
    const wout: array<byte>
    var wbusy: bool
    var wpos: nat
    var wsz: nat

    /** make_context. */
    constructor ()
      ensures fresh(stream) && fresh(rin) && fresh(wout)
      ensures stream.Length == GLOBAL_KARMA && rin.Length == MESSAGE && Is(Fresh(stream[..], rin[..])) && !wbusy
    {
      conn := Down;
      stream := new byte[GLOBAL_KARMA](_ => 0);
      streamPos := 0;
      streamKarma := GLOBAL_KARMA - 1;
      streamDebt := 0;
      rin := new byte[MESSAGE](_ => 0);
      rpos := 0;
      rstreamPos := 0;
      rstreamKarma := 0;
      wout := new byte[MESSAGE](_ => 0);
      wbusy := false;
      wpos := 0;
      wsz := 0;
    }

    /** What is still to be written of the current packet. */
    ghost function Pending(): seq<byte>
      reads this, wout
      requires Formed()
    {
      if wbusy then wout[wpos..wsz] else []
    }

    ghost predicate Formed()
      reads this
    {
      && wout.Length == MESSAGE && wpos <= wsz <= MESSAGE
      && stream.Length == GLOBAL_KARMA && streamPos < GLOBAL_KARMA
      && rin.Length == MESSAGE && rpos <= MESSAGE
      && stream != rin && stream != wout && rin != wout
    }

    ghost predicate Counters(w: Wire)
      reads this
    {
      && conn == w.conn && streamPos == w.streamPos && streamKarma == w.streamKarma && streamDebt == w.debt
      && rpos == w.rpos && rstreamPos == w.rstreamPos && rstreamKarma == w.rstreamKarma
    }

    /** The fields are those of w, its history aside. */
    ghost predicate Is(w: Wire)
      reads this, stream, rin, wout
    {
      Formed() && Counters(w) && Pending() == w.pending && stream[..] == w.stream && rin[..] == w.rin
    }

    /** write_mainfd once write() has taken n bytes of the packet, and the step of mainw behind it. */
    method WriteMainfd(n: nat, ghost w: Wire)
      requires Is(w) && CanPut(w, n)
      modifies `streamKarma, `streamPos, `wpos, stream
      ensures Is(Put(w, n)) && wpos == old(wpos) + n
    {
      hide Laid;
      var out := wout[wpos..wpos + n];
      assert out == Pending()[..n];
      streamKarma := streamKarma - n;
      Rotated(streamPos, n);
      streamPos := WriteCbuf(stream, 0, streamPos, out, true);
      wpos := wpos + n;
    }

    lemma Rotated(pos: nat, n: nat)
      requires pos < GLOBAL_KARMA && n <= MESSAGE
      ensures Cell(GLOBAL_KARMA, 0, pos) == pos
      ensures Wrap(pos + n) == if pos + n >= GLOBAL_KARMA then pos + n - GLOBAL_KARMA else pos + n
    {
    }

    /** Where mainw replays the debt from, and how much it may ask write() to take. */
    method Arrears(ghost w: Wire) returns (pos: int, sz: int)
      requires Is(w) && 0 < w.debt
      ensures pos == RepayFrom(w) && sz == RepayRoom(w) && 1 <= sz
      ensures 0 <= pos && pos + sz <= GLOBAL_KARMA <==> w.debt <= w.streamPos + GLOBAL_KARMA
    {
      pos, sz := streamPos - streamDebt, streamDebt;
      if pos < 0 {
        pos := pos + GLOBAL_KARMA;
        sz := sz - streamPos;
      }
    }

    method Absolve(n: nat, ghost w: Wire)
      requires Is(w) && CanRepay(w, n)
      modifies `streamDebt
      ensures Is(Repay(w, n))
    {
      streamDebt := streamDebt - n;
    }

    /** The count that mainr passes to read(). */
    method ReadCount(ghost w: Wire) returns (ok: bool, count: int)
      requires Is(w)
      ensures ok == !BadSize(w) && (ok ==> count == ReadLimit(w))
    {
      var rsz: int := HEADER;
      ok := true;
      if rsz <= rpos {
        var sz := SizeField(rin[..]);
        rsz := rsz + sz;
        ok := !(sz <= 0 || sz > VPACKETSIZE);
      }
      count := rsz - rpos;
    }

    /** read() has put bs into the read buffer. */
    method ReadMain(bs: seq<byte>, ghost w: Wire)
      requires Is(w) && CanGet(w, bs) && w.rstreamPos < GLOBAL_KARMA
      modifies `rpos, `rstreamPos, `rstreamKarma, rin
      ensures Is(Get(w, bs))
    {
      forall i | 0 <= i < |bs| {
        rin[rpos + i] := bs[i];
      }
      assert rin[..] == w.rin[..w.rpos] + bs + w.rin[w.rpos + |bs|..];
      rstreamPos := rstreamPos + |bs|;
      if rstreamPos >= GLOBAL_KARMA {
        rstreamPos := rstreamPos - GLOBAL_KARMA;
      }
      rstreamKarma := rstreamKarma + |bs|;
      rpos := rpos + |bs|;
    }

    /** mainr has a whole packet; read_ack adds what it acknowledges. */
    method OpenPacket(ghost w: Wire) returns (p: Packet)
      requires Is(w) && Complete(w)
      modifies `rpos, `streamKarma
      ensures p == Decode(w.rin) && Is(Open(w))
    {
      hide Decode;
      rpos := 0;
      p := Decode(rin[..]);
      if p.Ack? {
        streamKarma := streamKarma + p.total;
      }
    }

    lemma Shows(w: Wire)
      requires Is(w)
      ensures conn == w.conn && streamKarma == w.streamKarma && streamDebt == w.debt
      ensures wpos <= wsz && |w.pending| == if wbusy then wsz - wpos else 0
    {
    }

    lemma Counts(w: Wire)
      requires Is(w)
      ensures rstreamKarma == w.rstreamKarma && rpos == w.rpos && conn == w.conn
    {
    }

    lemma Stays(w: Wire)
      requires Is(w)
      ensures streamPos == w.streamPos < GLOBAL_KARMA
    {
    }

    method Becomes(conn: Conn, ghost w: Wire)
      requires Is(w)
      modifies `conn
      ensures Is(w.(conn := conn))
    {
      this.conn := conn;
    }

    /** wout has been written out. */
    method Finish(ghost w: Wire)
      requires Is(w) && wpos == wsz
      modifies `wbusy
      ensures Is(w) && !wbusy
    {
      wbusy := false;
    }

    method StreamAck(ghost w: Wire) returns (total: int)
      requires Is(w)
      ensures total == w.rstreamKarma
    {
      total := rstreamKarma;
    }

    /** mainw has filled wout. */
    method ClosePacket(p: Packet, ghost w: Wire)
      requires Is(w) && CanCompose(w, p)
      modifies `wbusy, `wpos, `wsz, `rstreamKarma, wout
      ensures Is(Compose(w, p)) && wbusy && wpos < wsz
    {
      hide Encode;
      var bytes := Encode(p);
      forall i | 0 <= i < |bytes| {
        wout[i] := bytes[i];
      }
      wpos, wsz, wbusy := 0, |bytes|, true;
      assert wout[0..wsz] == bytes;
      if p.Ack? {
        rstreamKarma := 0;
      }
    }

    /** The peer position has arrived. */
    method Settle(peerPos: int, ghost w: Wire)
      requires Is(w)
      modifies `conn, `streamDebt
      ensures Is(Shake(w, peerPos))
    {
      streamDebt := Wrap32(streamPos - peerPos);
      streamDebt := streamDebt + (if streamDebt < 0 then GLOBAL_KARMA else 0);
      conn := Ready;
    }
  }
}
