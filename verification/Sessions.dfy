/**
 One client as both endpoints see it: its record on either side and the items for it that are in
 flight each way. A client the demux side has not met yet counts as Unborn there.
 */
module Sessions {
  import opened NetBytes
  import opened Packets
  import opened PoolState

  function Unborn(id: int): Client {
    NewClient(id).(up := true, wkarma := 0)
  }

  /** The payload bytes of some items, in order. */
  function Bytes(f: seq<Item>): seq<byte> {
    if f == [] then [] else (if f[0].Payload? then f[0].bytes else []) + Bytes(f[1..])
  }

  /** The credit some items carry. */
  function Credits(f: seq<Item>): int {
    if f == [] then 0 else (if f[0].Credit? && f[0].karma > 0 then f[0].karma else 0) + Credits(f[1..])
  }

  predicate IsNotice(i: Item) {
    i.Credit? && i.karma < 0
  }

  predicate GoodItem(i: Item) {
    match i
    case Payload(_, bytes) => 1 <= |bytes| <= VPACKETSIZE
    case Credit(_, karma) => -1 <= karma <= CLIENT_KARMA
  }

  /** The notice of a disconnect is under way. */
  predicate Announced(f: seq<Item>) {
    f != [] && IsNotice(f[|f| - 1])
  }

  /** This side has composed its notice. */
  predicate Said(c: Client) {
    !c.up && c.rkarma == 0
  }

  /** This side has processed the peer's notice. */
  predicate Told(c: Client) {
    c.rdead || c.burned
  }

  /** The credit this side has not handed back yet. */
  function Owes(c: Client): int {
    if c.rkarma < 0 then 0 else c.rkarma
  }

  /** Credit of the direction x to y: held by x, spent on bytes in flight or in y's buffer, or on its way back. */
  function CreditSum(x: Client, y: Client, f: seq<Item>, back: seq<Item>): int {
    x.wkarma + |Bytes(f)| + |y.out| + Owes(y) + Credits(back)
  }

  ghost predicate WellCarried(x: Client, f: seq<Item>) {
    && (forall i | 0 <= i < |f| :: GoodItem(f[i]) && f[i].id == x.id)
    && (forall i | 0 <= i < |f| - 1 :: !IsNotice(f[i]))
  }

  /** The direction from x to y, with f in flight to y and `back` in flight to x. */
  ghost predicate Way(x: Client, y: Client, f: seq<Item>, back: seq<Item>) {
    && y.id == x.id
    && WellCarried(x, f)
    // Nothing is lost, repeated or reordered between the two sockets.
    && y.written + y.out + Bytes(f) == x.read
    // Credit is conserved while y is up, and never grows.
    && CreditSum(x, y, f, back) <= CLIENT_KARMA
    && (y.up ==> CreditSum(x, y, f, back) == CLIENT_KARMA)
    // A notice is the last word, and y knows of it once it has arrived.
    && (Announced(f) ==> Said(x))
    && (Said(x) && !Announced(f) ==> Told(y))
    && (Told(y) ==> Said(x) && f == [])
  }

  ghost predicate Session(x: Client, y: Client, f: seq<Item>, g: seq<Item>) {
    Way(x, y, f, g) && Way(y, x, g, f) && Sane(x) && Sane(y)
  }

  lemma {:induction false} BytesAppend(f: seq<Item>, g: seq<Item>)
    ensures Bytes(f + g) == Bytes(f) + Bytes(g)
  {
    if f == [] {
      assert f + g == g;
    } else {
      assert (f + g)[1..] == f[1..] + g;
      BytesAppend(f[1..], g);
    }
  }

  lemma {:induction false} CreditsAppend(f: seq<Item>, g: seq<Item>)
    ensures Credits(f + g) == Credits(f) + Credits(g)
  {
    if f == [] {
      assert f + g == g;
    } else {
      assert (f + g)[1..] == f[1..] + g;
      CreditsAppend(f[1..], g);
    }
  }

  lemma {:induction false} CreditsSign(f: seq<Item>)
    ensures Credits(f) >= 0
  {
    if f != [] {
      CreditsSign(f[1..]);
    }
  }

  lemma OneMore(f: seq<Item>, i: Item)
    ensures Bytes(f + [i]) == Bytes(f) + (if i.Payload? then i.bytes else [])
    ensures Credits(f + [i]) == Credits(f) + (if i.Credit? && i.karma > 0 then i.karma else 0)
  {
    BytesAppend(f, [i]);
    CreditsAppend(f, [i]);
    assert [i][1..] == [];
    assert Bytes([i]) == (if i.Payload? then i.bytes else []) + [];
  }

  /** Accept on the mux side opens a session; all credit towards it is still to be handed out. */
  lemma SessionOpens(id: int)
    requires 0 < id < MAX_CLIENTS
    ensures Session(NewClient(id).(up := true, rkarma := CLIENT_KARMA), Unborn(id), [], [])
  {
  }

  lemma SendPayload(x: Client, y: Client, f: seq<Item>, g: seq<Item>, data: seq<byte>)
    requires Session(x, y, f, g) && x.up && 1 <= |data| <= VPACKETSIZE && |data| <= x.wkarma
    ensures Session(x.(wkarma := x.wkarma - |data|, read := x.read + data), y, f + [Payload(x.id, data)], g)
  {
    OneMore(f, Payload(x.id, data));
  }

  /** write_ack for one client: credit goes back, or the notice goes out, at most once. */
  lemma SendNote(x: Client, y: Client, f: seq<Item>, g: seq<Item>)
    requires Session(x, y, f, g) && Due(x) && !x.burned
    ensures -1 <= x.rkarma <= CLIENT_KARMA && (x.rdead ==> x.rkarma == -1)
    ensures Session(x.(rkarma := 0, said := x.said || x.rkarma == -1, burned := x.rdead), y,
        f + [Credit(x.id, x.rkarma)], g)
  {
    OneMore(f, Credit(x.id, x.rkarma));
    CreditsSign(f);
    assert !Said(x);
  }

  lemma HangUp(x: Client, y: Client, f: seq<Item>, g: seq<Item>)
    requires Session(x, y, f, g) && x.up
    ensures Session(x.(up := false, rkarma := -1), y, f, g)
  {
  }

  lemma Flush(x: Client, y: Client, f: seq<Item>, g: seq<Item>, n: nat)
    requires Session(x, y, f, g) && x.up && n <= |x.out|
    ensures Session(x.(out := x.out[n..], written := x.written + x.out[..n], rkarma := x.rkarma + n), y, f, g)
  {
    assert x.written + x.out == x.written + x.out[..n] + x.out[n..];
  }

  /** An incoming payload always finds room. */
  lemma TakePayload(x: Client, y: Client, f: seq<Item>, g: seq<Item>)
    requires Session(x, y, f, g) && g != [] && g[0].Payload?
    ensures !NoRoom(x, g[0])
    ensures Session(x.(out := x.out + g[0].bytes), y, f, g[1..])
  {
    CreditsSign(f);
    assert x.written + x.out + (g[0].bytes + Bytes(g[1..])) == x.written + (x.out + g[0].bytes) + Bytes(g[1..]);
  }

  lemma TakeCredit(x: Client, y: Client, f: seq<Item>, g: seq<Item>)
    requires Session(x, y, f, g) && g != [] && g[0].Credit? && g[0].karma >= 0
    ensures Session(x.(wkarma := x.wkarma + g[0].karma), y, f, g[1..])
  {
    CreditArrives(x, y, f, g);
    CreditLeaves(x, y, f, g);
  }

  lemma CreditArrives(x: Client, y: Client, f: seq<Item>, g: seq<Item>)
    requires Way(x, y, f, g) && g != [] && g[0].Credit? && g[0].karma >= 0
    ensures Way(x.(wkarma := x.wkarma + g[0].karma), y, f, g[1..])
  {
  }

  lemma CreditLeaves(x: Client, y: Client, f: seq<Item>, g: seq<Item>)
    requires Way(y, x, g, f) && g != [] && g[0].Credit? && g[0].karma >= 0
    ensures Way(y, x.(wkarma := x.wkarma + g[0].karma), g[1..], f)
  {
  }

  /** read_ack for a notice, in its three cases. */
  lemma TakeNotice(x: Client, y: Client, f: seq<Item>, g: seq<Item>)
    requires Session(x, y, f, g) && g != [] && IsNotice(g[0])
    ensures g[1..] == [] && !x.burned && !x.rdead
    ensures x.up ==> Session(x.(rdead := true, told := true, up := false, rkarma := -1), y, f, g[1..])
    ensures !x.up && x.rkarma == 0 ==> Session(x.(burned := true, told := true), y, f, g[1..])
    ensures !x.up && x.rkarma != 0 ==> Session(x.(rdead := true, told := true), y, f, g[1..])
  {
  }
}
