/**
 The virtual packets of tcpmux and their layout in the `message` struct: an id, a size and up to
 VPACKETSIZE bytes, the two numbers in network order.
 */
module Packets {
  import opened NetBytes

  const GLOBAL_KARMA: nat := 0x10_0000
  const CLIENT_KARMA: nat := 0x1_0000
  const VPACKETSIZE: nat := 0x400
  const MAX_CLIENTS: nat := 0x1_0000
  const ACK_THRESHOLD: nat := 0x100

  /** sizeof(message) - VPACKETSIZE. */
  const HEADER: nat := 8
  const MESSAGE: nat := HEADER + VPACKETSIZE
  /** Id and karma pairs that fit behind the total of one acknowledgment. */
  const MAX_NOTES: nat := (VPACKETSIZE - 4) / 8

  /** One id and karma pair of an acknowledgment; karma -1 says that the client is gone. */
  datatype Note = Note(id: int, karma: int)

  datatype Packet =
    | Data(id: int, payload: seq<byte>)
    | Ack(total: int, notes: seq<Note>)

  predicate GoodNote(n: Note) {
    0 < n.id < MAX_CLIENTS && -1 <= n.karma <= CLIENT_KARMA
  }

  /** The packets an endpoint composes. */
  predicate GoodPacket(p: Packet) {
    match p
    case Data(id, payload) => 0 < id < MAX_CLIENTS && 1 <= |payload| <= VPACKETSIZE
    case Ack(total, notes) =>
      && 0 <= total <= GLOBAL_KARMA
      && |notes| <= MAX_NOTES
      && forall i | 0 <= i < |notes| :: GoodNote(notes[i])
  }

  function WireId(p: Packet): int {
    match p
    case Data(id, _) => id
    case Ack(_, _) => -1
  }

  function PutNotes(notes: seq<Note>): (b: seq<byte>)
    requires forall i | 0 <= i < |notes| :: GoodNote(notes[i])
    ensures |b| == 8 * |notes|
  {
    if notes == [] then [] else
      assert GoodNote(notes[0]);
      PutInt(notes[0].id) + PutInt(notes[0].karma) + PutNotes(notes[1..])
  }

  function GetNotes(b: seq<byte>): seq<Note> {
    if |b| < 8 then [] else [Note(GetInt(b[..4]), GetInt(b[4..8]))] + GetNotes(b[8..])
  }

  function Body(p: Packet): (b: seq<byte>)
    requires GoodPacket(p)
    ensures 1 <= |b| <= VPACKETSIZE
  {
    match p
    case Data(_, payload) => payload
    case Ack(total, notes) => PutInt(total) + PutNotes(notes)
  }

  /** The bytes mainw sends for a packet. */
  function Encode(p: Packet): (b: seq<byte>)
    requires GoodPacket(p)
    ensures HEADER < |b| == HEADER + |Body(p)| <= MESSAGE
  {
    PutInt(WireId(p)) + PutInt(|Body(p)|) + Body(p)
  }

  /** The size field of a message whose header has arrived. */
  function SizeField(rin: seq<byte>): int
    requires |rin| >= HEADER
  {
    GetInt(rin[4..8])
  }

  /** What mainr and read_ack make of a complete message in the read buffer. */
  function Decode(rin: seq<byte>): Packet
    requires |rin| == MESSAGE && 1 <= SizeField(rin) <= VPACKETSIZE
  {
    var id := GetInt(rin[..4]);
    var end := HEADER + SizeField(rin);
    if id == -1 then
      Ack(GetInt(rin[8..12]), if end < 12 then [] else GetNotes(rin[12..end]))
    else
      Data(id, rin[8..end])
  }

  function EncodeAll(ps: seq<Packet>): seq<byte>
    requires forall i | 0 <= i < |ps| :: GoodPacket(ps[i])
  {
    if ps == [] then [] else Encode(ps[0]) + EncodeAll(ps[1..])
  }

  lemma {:induction false} NotesRoundTrip(notes: seq<Note>)
    requires forall i | 0 <= i < |notes| :: GoodNote(notes[i])
    ensures GetNotes(PutNotes(notes)) == notes
  {
    if notes != [] {
      assert GoodNote(notes[0]);
      var b := PutNotes(notes);
      assert b[..4] == PutInt(notes[0].id);
      assert b[4..8] == PutInt(notes[0].karma);
      assert b[8..] == PutNotes(notes[1..]);
      PutGetInt(notes[0].id);
      PutGetInt(notes[0].karma);
      NotesRoundTrip(notes[1..]);
    }
  }

  lemma EncodeFields(p: Packet)
    requires GoodPacket(p)
    ensures Encode(p)[..4] == PutInt(WireId(p)) && Encode(p)[4..8] == PutInt(|Body(p)|) && Encode(p)[8..] == Body(p)
  {
  }

  lemma AckFields(total: int, notes: seq<Note>)
    requires GoodPacket(Ack(total, notes))
    ensures var b := Body(Ack(total, notes)); GetInt(b[..4]) == total && GetNotes(b[4..]) == notes
  {
    PutGetInt(total);
    assert Body(Ack(total, notes))[..4] == PutInt(total);
    assert Body(Ack(total, notes))[4..] == PutNotes(notes);
    NotesRoundTrip(notes);
  }

  lemma Slices(a: seq<byte>, b: seq<byte>)
    requires HEADER < |a| && a <= b
    ensures b[..4] == a[..4] && b[4..8] == a[4..8] && b[8..|a|] == a[8..]
    ensures |a| >= 12 ==> b[8..12] == a[8..][..4] && b[12..|a|] == a[8..][4..]
  {
  }

  /** A message decodes to the packet it was composed from, whatever is left behind it in the buffer. */
  lemma PacketRoundTrip(p: Packet, rin: seq<byte>)
    requires GoodPacket(p) && |rin| == MESSAGE && Encode(p) <= rin
    ensures SizeField(rin) == |Body(p)| && Decode(rin) == p
  {
    hide Encode, GetInt, PutInt, GetNotes, PutNotes;
    Slices(Encode(p), rin);
    EncodeFields(p);
    PutGetInt(WireId(p));
    PutGetInt(|Body(p)|);
    if p.Ack? {
      AckFields(p.total, p.notes);
    }
  }

  lemma {:induction false} EncodeAllAppend(ps: seq<Packet>, qs: seq<Packet>)
    requires forall i | 0 <= i < |ps| :: GoodPacket(ps[i])
    requires forall i | 0 <= i < |qs| :: GoodPacket(qs[i])
    ensures EncodeAll(ps + qs) == EncodeAll(ps) + EncodeAll(qs)
  {
    if ps == [] {
      assert ps + qs == qs;
    } else {
      assert (ps + qs)[1..] == ps[1..] + qs;
      EncodeAllAppend(ps[1..], qs);
    }
  }
}
