# METEOR: proofs about tcpmux and the Dalvik core

This project models four parts of METEOR and proves what they promise. It is checked with
`dafny verify dfyconfig.toml`.

**tcpmux** carries many TCP clients over one main connection that may break and be made again at any time.
Each side keeps the last 2^20 bytes it has written in a ring; on a reconnect the sides exchange positions
modulo 2^20 and replay what is missing. Two credit schemes, called karma, bound what is outstanding, and
their acknowledgments travel in the same stream. Client ids are reused after both sides have announced a
disconnect.

- `NetBytes`, `Ring`, `Packets`: byte order, the ring (`write_cbuf`) and the message format.
- `Wire`, `Pool`, `Node`: one endpoint as a value, with its stream side, its clients and its events. Histories
  of what has been read, written and composed are kept beside the state, for the statements only.
- `WireProtocol`, `Sessions`, `ClientProtocol`, `ClientSteps`: the invariants between two endpoints, one
  direction and one client at a time.
- `System`, `Theorems`: two endpoints and connections that break, drop what is in flight and come back. Every
  step keeps the invariant, and the theorems hold in every state of every run.
- `ClientLists`, `MainStream`, `MuxContext`: the same as classes with arrays, intrusive lists and loops over
  partial reads and writes. Each method is proved to perform a run of the events of `Node` (`Trace`), and
  each of these is a step of the whole system (`TraceSteps`). System calls are non-deterministic; what the last
  one came to is recorded, so that a method may return early only where a call would block or failed.
- `Runs`: the logs of two contexts against the runs of the system, and runs that show something.

**AtomicCache** is a seqlock cache. Any number of threads interleave the lookup macro and the try-lock writer,
one load, store or compare-and-swap a step.

**libdex** verifies a DEX file once and then reads it without checks. `Leb128`, `Mutf8`, `StringOrder`,
`Descriptors`, `Shapes` are numbers, strings and type descriptors; `DexCatch`, `EncodedValue`, `DexDataMap`,
`FirstPass`, `DexIds`, `ClassDefs` are verifiers together with what follows for the readers; `DexProto` is the
order and the printing of prototypes. `PowerOfTwo`, `Probing`, `ClassTable`, `ZipTable` are the open-addressing
tables for classes and zip entries.

**SHA-1** (`Sha1Spec`, `Sha1`) is libdex's in-place implementation against FIPS 180-1.

## Where the code does not do what it seems to promise

- `mainw` with an empty write list and no debt returns at once, even if a packet is half written in `wout`; it
  is finished when the next client is queued. `MainW` says exactly when: something is still pending after all
  is flushed if and only if the state on entry was `HalfWritten`. `TcpmuxRuns.HalfWrittenHappens` is a run that
  ends in such a state.
- `AtomicCache` answers 0 for two zero keys on an entry that nobody has filled. It agrees with the calculation
  exactly if that gives 0 for two zero keys (`CorrectIffZeroAtZero`).
- `dexGetDexCodeSize` counts the padding behind instructions that end unaligned even if there are no tries,
  where the verifier has not counted it (`CodeSizeAgrees`, `PaddingIsCounted`).
- `readUnsignedLittleEndian` gives 0 for an index that the end of the file cuts off, and the verifier accepts
  it (`AcceptedIsValue`, `CutIndexIsAccepted`).
- Strings are sorted by `dexUtf8Cmp`, but prototypes are compared by `strcmp`. The two orders agree on strings
  without U+0000, and `OrderAgrees` says exactly when on others. Type descriptors have none, so prototypes are
  in order.
- `dexProtoCompareToDescriptor` compares plain `char`s. Where these are signed, it contradicts `protoCompare` on
  types whose names first differ between an ASCII and another character (`TextOrder`, `SignedCharsDisagree`).
- `dexRoundUpPower2(0)` is 0, so the class table of a file without classes has no slot, and `dexFindClass` must
  not be called on it (`CreateClassLookup`).
- `mainr` takes any position from its peer. From a position more than a lap in front of the ring `mainw` would
  write bytes that lie before it; others give a negative debt, or replay a lap too much. `PositionCases` says
  which do what; 2^20 does no harm. `MainR` stops with the result `Misled` exactly where the ring cannot pay the
  debt (`BadPositions`), and no endpoint of this program ever sends such a position (`PositionsAreGood`).
- `SHA1Update` tests in 32 bits whether the buffer is full. It goes wrong exactly if the bytes buffered and the
  new ones are 2^32 or more together (`BufferFits`, `BufferOverruns`).
- `parseZipArchive` compares the local offset as a `long`. Where that has 32 bits, offsets from 2^31 on are
  negative and pass (`NarrowLong`, `FarHeaderPasses`).

## Model

| member | source | states |
|---|---|---|
| TcpmuxTheorems.StreamExactlyOnce | meteor_dalvik/tcpmux/tcpmux.c:736-745 | over every run with any number of breaks and reconnects: the bytes a side has read are a prefix of those the other side gave to write_mainfd, the packets decoded a prefix of those composed, and while both share a connection what is missing is in flight or is the debt |
| TcpmuxTheorems.ReconnectRepaysExactly | meteor_dalvik/tcpmux/tcpmux.c:907-910 | after a handshake the debt computed from two positions modulo 2^20 is exactly the number of bytes the peer has not read |
| TcpmuxTheorems.GlobalCreditConserved | meteor_dalvik/tcpmux/tcpmux.c:742-756 | stream_karma, the bytes not yet read, the peer's rstream_karma and the acknowledgments not yet processed always add up to GLOBAL_KARMA - 1, in both directions; no distance reaches a whole lap |
| TcpmuxTheorems.NoErrorBranch | meteor_dalvik/tcpmux/tcpmux.c:753-764 | in no state of any run does a side meet a bad packet size, bad global karma, an unknown client, a payload without room or a failing assertion of write_ack |
| TcpmuxTheorems.ClientStreams | meteor_dalvik/tcpmux/tcpmux.c:927-951 | what one side has written to a client's socket is a prefix of what the other side has read from its counterpart's, both ways |
| TcpmuxTheorems.ClientCreditConserved | meteor_dalvik/tcpmux/tcpmux.c:1098-1103 | wkarma, payload not yet handled, out_sz, rkarma and karma on its way back add up to CLIENT_KARMA while the receiving end is up, and never to more |
| TcpmuxTheorems.ItemsReachTheirClient | meteor_dalvik/tcpmux/tcpmux.c:533-550 | an item is handled by the client it was composed for, however ids are reused; the demux side makes a client exactly for a sender it has not met |
| TcpmuxTheorems.SlotsFreedInTime | meteor_dalvik/tcpmux/tcpmux.c:778-788 | a client leaves the table exactly when its own notice has been composed and the peer's has been handled |
| TcpmuxTheorems.QueuesForgetNothing | meteor_dalvik/tcpmux/tcpmux.c:453-483 | on both sides, in every state, the write list and the karma list hold exactly the clients that have something to say, each once, and a debt of acknowledgments keeps the control client queued |
| TcpmuxTheorems.InvAlong | meteor_dalvik/tcpmux/tcpmux.c:1198-1217 | the invariant of the two endpoints and their connections holds along every run |
| TcpmuxSystem.NextKeeps | meteor_dalvik/tcpmux/tcpmux.c:839-1075 | every step of either side, every break, dial and handshake keeps the invariant |
| TcpmuxSystem.NeverFails | meteor_dalvik/tcpmux/tcpmux.c:796-807 | the invariant excludes every branch of mainr and read_ack that gives up and every assertion of write_ack |
| TcpmuxSystem.LinkKeeps | meteor_dalvik/tcpmux/tcpmux.c:826-837 | breaks, dials and handshakes keep the invariant, and leave clients and packets alone |
| TcpmuxSystem.MuxKeeps | meteor_dalvik/tcpmux/tcpmux.c:839-1117 | every event of the mux side keeps the invariant of both sides |
| TcpmuxSystem.DemuxKeeps | meteor_dalvik/tcpmux/tcpmux.c:839-1117 | every event of the demux side keeps the invariant of both sides |
| TcpmuxSystem.OwesLittle | meteor_dalvik/tcpmux/tcpmux.c:805-807 | what a client owes never exceeds CLIENT_KARMA |
| TcpmuxSystem.NextItem | meteor_dalvik/tcpmux/tcpmux.c:928-939 | the item a side handles next is the next one the other side composed |
| TraceSteps.MuxHappens | meteor_dalvik/tcpmux/tcpmux.c:839-1117 | whatever the methods of a mux_context do on the mux side is a step of the two-sided system, if what it reads is in flight |
| TraceSteps.DemuxHappens | meteor_dalvik/tcpmux/tcpmux.c:839-1117 | the same on the demux side |
| TcpmuxRuns.SidesOfRun | meteor_dalvik/tcpmux/tcpmux.c:839-1117 | the log of each side of a run, all happenings of it, leads to the node of that side and to no other, and mainr and write_ack have no reason to give up there |
| TcpmuxRuns.ContextsGetAlong | meteor_dalvik/tcpmux/tcpmux.c:753-807 | so two contexts of this program whose logs are those of a run are in the states of the run: MainR never ends with Rejected between them, and MainW never fails |
| TcpmuxRuns.PositionsAreGood | meteor_dalvik/tcpmux/tcpmux.c:631-643 | in every state of every run the position that either side sends in its header is inside the ring, and one that the other side can pay wherever it is itself |
| TcpmuxRuns.BadPositions | meteor_dalvik/tcpmux/tcpmux.c:907-909 | the four bytes for which MainR ends with Misled: those of a position a lap or more behind stream_pos, or more than a lap ahead of it |
| TcpmuxRuns.BadPositionHurts | meteor_dalvik/tcpmux/tcpmux.c:965-973 | a run that shows it: a fresh mux side that has dialed would, for position -2^20 - 1, write from one byte in front of its ring |
| WireState.PositionCases | meteor_dalvik/tcpmux/tcpmux.c:908-909 | for each position of 32 bits and each stream_pos, whether the debt computed is negative, one that the ring can pay, a lap more than that, or so large that the replay starts in front of the ring |
| WireState.GoodIsModulo | meteor_dalvik/tcpmux/tcpmux.c:908-909 | a debt that the ring can pay is the distance modulo 2^20, also for a position outside the ring |
| WireState.AlwaysGood | meteor_dalvik/tcpmux/tcpmux.c:908-909 | the positions that can be paid at every stream_pos are exactly those from 0 to 2^20, the size of the ring included |
| WireState.SliceInside | meteor_dalvik/tcpmux/tcpmux.c:967-973 | the slice handed to write() lies in the ring exactly if the debt is at most stream_pos and a lap |
| WireState.BadPositionsExist | meteor_dalvik/tcpmux/tcpmux.c:908-909 | a position for each way to fail: a read in front of the ring, a whole lap replayed, and a negative debt |
| TcpmuxRuns.HalfWrittenHappens | meteor_dalvik/tcpmux/tcpmux.c:964-989 | from any start, six steps lead to a half-written packet that mainw leaves alone: connected, no debt, nobody in the write list |
| WireProtocol.DebtIsExact | meteor_dalvik/tcpmux/tcpmux.c:908-909 | two positions modulo GLOBAL_KARMA determine a distance below GLOBAL_KARMA |
| WireProtocol.GlobalCredit | meteor_dalvik/tcpmux/tcpmux.c:742-752 | the invariant of one direction implies the conservation of its credit |
| WireProtocol.NextPacket | meteor_dalvik/tcpmux/tcpmux.c:927-931 | however the stream is cut into reads, the packet that completes in the read buffer is the next one composed |
| WireProtocol.ReadStaysInside | meteor_dalvik/tcpmux/tcpmux.c:853-864 | a read never goes past the packet being read |
| WireProtocol.PutHalf | meteor_dalvik/tcpmux/tcpmux.c:736-745 | bytes written join those in flight, or are lost with a connection the peer has left; either way the direction stays consistent |
| WireProtocol.RepayHalf | meteor_dalvik/tcpmux/tcpmux.c:965-980 | what the replay loop writes are the next undelivered bytes, in order |
| WireProtocol.GetHalf | meteor_dalvik/tcpmux/tcpmux.c:915-927 | reading keeps the direction consistent |
| WireProtocol.OpenHalf | meteor_dalvik/tcpmux/tcpmux.c:928-936 | taking out a whole packet keeps the direction consistent |
| WireProtocol.ComposeHalf | meteor_dalvik/tcpmux/tcpmux.c:1043-1046 | composing a packet keeps the direction consistent |
| WireProtocol.DialKeeps | meteor_dalvik/tcpmux/tcpmux.c:688-734 | a new connection of the mux side keeps both directions consistent |
| WireProtocol.AcceptKeeps | meteor_dalvik/tcpmux/tcpmux.c:875-906 | taking up a connection by its key keeps both directions consistent |
| WireProtocol.StaleAcceptKeeps | meteor_dalvik/tcpmux/tcpmux.c:875-906 | the same for a connection that the mux side has given up meanwhile |
| WireProtocol.MuxShakeExact | meteor_dalvik/tcpmux/tcpmux.c:907-910 | the mux side learns exactly what the demux side has not read |
| WireProtocol.DemuxShakeExact | meteor_dalvik/tcpmux/tcpmux.c:907-910 | the demux side learns exactly what the mux side has not read |
| WireProtocol.MuxBreakKeeps | meteor_dalvik/tcpmux/tcpmux.c:826-837 | a break seen by the mux side keeps both directions consistent |
| WireProtocol.DemuxBreakKeeps | meteor_dalvik/tcpmux/tcpmux.c:826-837 | a break seen by the demux side keeps both directions consistent |
| WireState.RepaymentIsHistory | meteor_dalvik/tcpmux/tcpmux.c:965-973 | the slice of the ring handed to write(), cut at the wrap point, is the run of undelivered bytes of the history |
| WireState.PutSound | meteor_dalvik/tcpmux/tcpmux.c:742-743 | byte k of the history stays at k modulo 2^20 for the last 2^20 bytes, and the counters stay in step |
| WireState.PutReplayable | meteor_dalvik/tcpmux/tcpmux.c:742-743 | no byte the peer may still ask for is overwritten |
| WireState.GetSound | meteor_dalvik/tcpmux/tcpmux.c:915-927 | reading keeps the ring, the read buffer and the counters in step |
| WireState.OpenSound | meteor_dalvik/tcpmux/tcpmux.c:747-756 | so does taking out a packet with its acknowledged total |
| WireState.ComposeSound | meteor_dalvik/tcpmux/tcpmux.c:801-802 | so does composing one |
| WireState.RepaySound | meteor_dalvik/tcpmux/tcpmux.c:979 | so does repaying debt |
| Packets.PacketRoundTrip | meteor_dalvik/tcpmux/tcpmux.c:1043-1046 | a message decodes to the packet it was composed from, whatever is behind it in the buffer |
| Packets.NotesRoundTrip | meteor_dalvik/tcpmux/tcpmux.c:757-759 | the pairs of an acknowledgment read back, negative ones included |
| NetBytes.PutGetInt | meteor_dalvik/tcpmux/tcpmux.c:808-809 | htonl and ntohl are inverse on 32-bit ints |
| Ring.WriteCbuf | meteor_dalvik/tcpmux/tcpmux.c:614-629 | the bytes are laid behind what is held, wrapped at the end; the size grows, or as a position wraps |
| Ring.LaidAppends | meteor_dalvik/tcpmux/tcpmux.c:614-629 | laying down behind what is held appends, as long as it fits |
| Ring.HeldDrop | meteor_dalvik/tcpmux/tcpmux.c:1100-1103 | moving the start drops the first bytes |
| PoolState.ActTidy | meteor_dalvik/tcpmux/tcpmux.c:453-531 | whatever an event does to the clients keeps the lists and the table exact |
| PoolState.HandleTidy | meteor_dalvik/tcpmux/tcpmux.c:757-790 | so does handling an item of the peer |
| PoolState.AcknowledgeTidy | meteor_dalvik/tcpmux/tcpmux.c:794-824 | so does an acknowledgment |
| PoolState.CollectTidy | meteor_dalvik/tcpmux/tcpmux.c:997-1042 | so does collecting a payload |
| PoolState.IntroduceTidy | meteor_dalvik/tcpmux/tcpmux.c:533-550 | so does a client first heard of |
| PoolState.AckNotesAre | meteor_dalvik/tcpmux/tcpmux.c:803-821 | an acknowledgment carries the first clients of the karma list, as many as fit, each with what it owed on entry, and leaves the rest in order |
| PoolState.PopCommutes | meteor_dalvik/tcpmux/tcpmux.c:990-1015 | popping before a disconnect comes to the same as popping after it |
| Sessions.SessionOpens | meteor_dalvik/tcpmux/tcpmux.c:1314-1320 | an accepted client starts a session in which all credit towards it is still to be handed out |
| Sessions.SendPayload | meteor_dalvik/tcpmux/tcpmux.c:1002-1021 | sending keeps the session: credit moves from the sender to bytes in flight |
| Sessions.SendNote | meteor_dalvik/tcpmux/tcpmux.c:803-821 | credit goes back, or the notice goes out, at most once |
| Sessions.TakePayload | meteor_dalvik/tcpmux/tcpmux.c:941-947 | an incoming payload always finds room, and credit is conserved |
| Sessions.TakeCredit | meteor_dalvik/tcpmux/tcpmux.c:766-770 | credit that arrives is credit the sender may spend |
| Sessions.TakeNotice | meteor_dalvik/tcpmux/tcpmux.c:771-788 | the peer's notice is handled right in its three cases |
| Sessions.Flush | meteor_dalvik/tcpmux/tcpmux.c:1091-1103 | delivering bytes turns them into credit owed |
| Sessions.HangUp | meteor_dalvik/tcpmux/tcpmux.c:485-496 | a disconnect keeps the session and announces the notice |
| ClientProtocol.DemuxKnows | meteor_dalvik/tcpmux/tcpmux.c:533-549 | the next item on the demux side reaches the client that stands for its sender, or its sender has never been met |
| ClientProtocol.MuxKnows | meteor_dalvik/tcpmux/tcpmux.c:533-542 | the mux side always knows the id of the next item, and it is the sender's |
| ClientProtocol.IdTaken | meteor_dalvik/tcpmux/tcpmux.c:535-537 | a client that the demux side has under the id of its next item is the one of the item's sender, not an older or newer one |
| ClientProtocol.BurnedIsTold | meteor_dalvik/tcpmux/tcpmux.c:778-788 | once the mux side has freed an id, the demux side has freed it too or is about to be told |
| ClientSteps.MuxActs | meteor_dalvik/tcpmux/tcpmux.c:982-1042 | what the mux side does by itself keeps all sessions |
| ClientSteps.DemuxActs | meteor_dalvik/tcpmux/tcpmux.c:982-1042 | what the demux side does by itself keeps all sessions |
| ClientSteps.MuxTakes | meteor_dalvik/tcpmux/tcpmux.c:757-790 | the mux side can handle its next item, and keeps all sessions |
| ClientSteps.DemuxTakes | meteor_dalvik/tcpmux/tcpmux.c:757-790 | the demux side can handle its next item, and keeps all sessions |
| ClientSteps.MuxAccepts | meteor_dalvik/tcpmux/tcpmux.c:1311-1321 | a new client on the mux side keeps all sessions |
| ClientSteps.DemuxMeets | meteor_dalvik/tcpmux/tcpmux.c:544-548 | a new client on the demux side keeps all sessions |
| NodeState.StepHealthy | meteor_dalvik/tcpmux/tcpmux.c:839-1117 | every event keeps the queues, rings and counters of its own side, whatever the peer sends |
| ClientLists.ClientPool.PushWriter | meteor_dalvik/tcpmux/tcpmux.c:453-467 | the intrusive write list becomes that of the pool after push_writer; says when mainw is to be tried |
| ClientLists.ClientPool.SetRkarma | meteor_dalvik/tcpmux/tcpmux.c:469-483 | the karma list grows exactly when the client comes to owe something |
| ClientLists.ClientPool.DisconnectClient | meteor_dalvik/tcpmux/tcpmux.c:485-496 | the client is down and its notice is due |
| ClientLists.ClientPool.LowestFree | meteor_dalvik/tcpmux/tcpmux.c:500-502 | the lowest id not in the table |
| ClientLists.ClientPool.AllocateClient | meteor_dalvik/tcpmux/tcpmux.c:519-531 | a fresh client, not on any list, under an id that was free |
| ClientLists.ClientPool.BurnClient | meteor_dalvik/tcpmux/tcpmux.c:780-783 | the slot is freed and the client marked |
| ClientLists.ClientPool.TakeNote | meteor_dalvik/tcpmux/tcpmux.c:804-820 | the head of the karma list is taken off and cleared, and freed if its peer has gone; gives the pair |
| ClientLists.ClientPool.Requeue | meteor_dalvik/tcpmux/tcpmux.c:1026-1037 | back to the end of the list, or in_write_queue cleared |
| ClientLists.ClientPool.Receive | meteor_dalvik/tcpmux/tcpmux.c:946-947 | the payload is in out_buf behind what was there |
| ClientLists.ClientPool.Flush | meteor_dalvik/tcpmux/tcpmux.c:1100-1103 | the first bytes of out_buf are gone |
| ClientLists.ClientPool.Delivered | meteor_dalvik/tcpmux/tcpmux.c:1098-1114 | as Flush, and the karma list grows exactly when the threshold is crossed |
| ClientLists.ClientPool.Collected | meteor_dalvik/tcpmux/tcpmux.c:1013-1037 | the client after mainw has read from it |
| ClientLists.ClientPool.Introduced | meteor_dalvik/tcpmux/tcpmux.c:544-548 | the client get_client makes, without credit |
| ClientLists.ClientPool.Accepted | meteor_dalvik/tcpmux/tcpmux.c:1314-1320 | the client accept makes, owing CLIENT_KARMA |
| ClientLists.ClientPool.Credited | meteor_dalvik/tcpmux/tcpmux.c:766-789 | what one pair of an acknowledgment does to its client |
| ClientLists.ClientPool.LinkWriter | meteor_dalvik/tcpmux/tcpmux.c:457-461 | linking at the end of the write list |
| ClientLists.ClientPool.UnlinkWriter | meteor_dalvik/tcpmux/tcpmux.c:985-991 | unlinking the head of the write list |
| ClientLists.ClientPool.constructor | meteor_dalvik/tcpmux/tcpmux.c:552-574 | the pool of a fresh context: the control client alone |
| MainStreams.MainStream.constructor | meteor_dalvik/tcpmux/tcpmux.c:552-574 | a fresh stream: GLOBAL_KARMA - 1 credit |
| MainStreams.MainStream.WriteMainfd | meteor_dalvik/tcpmux/tcpmux.c:736-745 | the ring, position, credit and the rest of the packet after n bytes have been taken |
| MainStreams.MainStream.Arrears | meteor_dalvik/tcpmux/tcpmux.c:967-973 | for every positive debt, the slice write() is asked to take, up to the wrap; it lies in the ring exactly if the debt is at most stream_pos and a lap |
| MainStreams.MainStream.ReadCount | meteor_dalvik/tcpmux/tcpmux.c:853-864 | the count asked of read(), or the refusal of a size field out of range |
| MainStreams.MainStream.ReadMain | meteor_dalvik/tcpmux/tcpmux.c:915-927 | read buffer, position modulo 2^20 and credit owed after a read |
| MainStreams.MainStream.OpenPacket | meteor_dalvik/tcpmux/tcpmux.c:928-952 | the packet in the buffer, and stream_karma with what it acknowledges |
| MainStreams.MainStream.ClosePacket | meteor_dalvik/tcpmux/tcpmux.c:1039-1046 | wout holds exactly the encoding of the packet |
| MainStreams.MainStream.Settle | meteor_dalvik/tcpmux/tcpmux.c:908-909 | the debt in 32-bit arithmetic, for every position the peer may have sent |
| MuxContexts.MuxContext.MainW | meteor_dalvik/tcpmux/tcpmux.c:958-1075 | performs a run of events; it returns because all is flushed, credit is used up, a write would block, or the connection is gone, and gives up only where an assertion of write_ack fails; an empty list without debt leaves everything as it is, and what is flushed leaves something pending exactly if the packet was half written on entry and nobody was waiting |
| MuxContexts.MuxContext.PayDebt | meteor_dalvik/tcpmux/tcpmux.c:965-980 | goes on only without debt; else a write would block or the connection is gone |
| MuxContexts.MuxContext.ComposePacket | meteor_dalvik/tcpmux/tcpmux.c:982-1047 | ends with a packet in wout or with an empty write list |
| MuxContexts.MuxContext.DumpPacket | meteor_dalvik/tcpmux/tcpmux.c:1051-1066 | writes on until the packet is out, credit is gone, or the socket refuses |
| MuxContexts.MuxContext.WriteAck | meteor_dalvik/tcpmux/tcpmux.c:794-824 | composes the acknowledgment of the model, and fails exactly where an assertion does |
| MuxContexts.MuxContext.Collect | meteor_dalvik/tcpmux/tcpmux.c:1002-1046 | reads from the client as the model does and puts the packet into wout |
| MuxContexts.MuxContext.DisconnectMain | meteor_dalvik/tcpmux/tcpmux.c:826-837 | only the connection state changes; the mux side may be dialing again |
| MuxContexts.MuxContext.MainR | meteor_dalvik/tcpmux/tcpmux.c:839-956 | performs a run of events that reads all that has arrived, unless the connection goes; every whole packet is handled; it gives up only in a state that the run theorems exclude, or on a position whose debt the ring cannot pay |
| MuxContexts.MuxContext.ReadHandshake | meteor_dalvik/tcpmux/tcpmux.c:849-913 | the position is completed and settled, or nothing more has arrived, or the connection is lost |
| MuxContexts.MuxContext.ReadStream | meteor_dalvik/tcpmux/tcpmux.c:853-954 | reads until nothing is left or the connection is lost |
| MuxContexts.MuxContext.Process | meteor_dalvik/tcpmux/tcpmux.c:928-952 | the packet in the buffer is opened and each of its items handled |
| MuxContexts.MuxContext.ReadAck | meteor_dalvik/tcpmux/tcpmux.c:757-791 | each pair is handled or, for a client that is not there, passed by |
| MuxContexts.MuxContext.GetClient | meteor_dalvik/tcpmux/tcpmux.c:533-550 | the client under the id, a new one, or NULL exactly if the model knows none |
| MuxContexts.MuxContext.ClientW | meteor_dalvik/tcpmux/tcpmux.c:1082-1117 | returns when nothing waits for the socket, the client is not up, or a write would block |
| MuxContexts.MuxContext.ClientR | meteor_dalvik/tcpmux/tcpmux.c:1077-1080 | announces the client exactly if it is up |
| MuxContexts.MuxContext.ClientReady | meteor_dalvik/tcpmux/tcpmux.c:1334-1356 | a finished or failed connect is recorded, input announced, output written; what mainr is reading stays |
| MuxContexts.MuxContext.PushWriter | meteor_dalvik/tcpmux/tcpmux.c:453-467 | announces the client, and tries mainw if it is the only one |
| MuxContexts.MuxContext.DisconnectClient | meteor_dalvik/tcpmux/tcpmux.c:485-496 | records the disconnect, and tries mainw if the notice is the first due |
| MuxContexts.MuxContext.Accept | meteor_dalvik/tcpmux/tcpmux.c:1311-1321 | a client under the lowest free id; what mainr is reading stays |
| MuxContexts.MuxContext.Serve | meteor_dalvik/tcpmux/tcpmux.c:1216-1393 | one event of muxloop, whichever it is: accept, timer, network change, client or main connection; afterwards mainr can take up the stream again, the bytes it has read are those that were there, and it gives up only as MainR and MainW do |
| MuxContexts.MuxContext.Connected | meteor_dalvik/tcpmux/tcpmux.c:631-643 | the endpoint waits for the peer's position |
| MuxContexts.MuxContext.constructor | meteor_dalvik/tcpmux/tcpmux.c:552-574 | a fresh context is a fresh node of the model |
| AtomicCache.HitsAreRight | meteor_dalvik/vm/AtomicCache.h:95-143 | for any number of threads and any interleaving of their loads and stores every lookup returns what the calculation gives, but for two zero keys on an entry nobody has filled |
| AtomicCache.OneWriter | meteor_dalvik/vm/AtomicCache.cpp:108-162 | at most one thread writes an entry; the lock flag is set exactly while one does, and without it the version is even |
| AtomicCache.NeverAborts | meteor_dalvik/vm/AtomicCache.cpp:123-161 | the last compare-and-swap never fails and the assertion behind the first one holds |
| AtomicCache.CorrectIffZeroAtZero | meteor_dalvik/vm/AtomicCache.h:95-143 | the cache agrees with the calculation in every run exactly if the calculation gives 0 for two zero keys |
| AtomicCache.ZeroHit | meteor_dalvik/vm/AtomicCache.h:105-117 | the run that shows it: two zero keys hit a fresh entry |
| AtomicCache.MissFills | meteor_dalvik/vm/AtomicCache.cpp:86-162 | a miss left alone leaves the answer behind, with the version two higher and unlocked |
| AtomicCache.FilledHits | meteor_dalvik/vm/AtomicCache.h:105-130 | the next lookup of the same keys left alone is a hit |
| AtomicCache.NextKeeps | meteor_dalvik/vm/AtomicCache.cpp:86-162 | every load, store and compare-and-swap keeps the invariant of entries and threads |
| AtomicCache.UpdateEntry | meteor_dalvik/vm/AtomicCache.cpp:138-157 | fields change only under the lock and while the count is odd; counts only grow |
| Sha1.Transform | meteor_dalvik/libdex/sha1.cpp:135-196 | the in-place ring of 16 words and the renamed registers compute the compression of FIPS 180-1, section 7 |
| Sha1.Expand | meteor_dalvik/libdex/sha1.cpp:117-123 | blk0 and blk leave the schedule word of round t at t mod 16, and give it |
| Sha1.RingCells | meteor_dalvik/libdex/sha1.cpp:122-123 | the cells blk reads hold the words t-3, t-8, t-14 and t-16 |
| Sha1.Macro | meteor_dalvik/libdex/sha1.cpp:126-130 | R0 to R4 in place: from the registers of round t to those of round t + 1, in the ring and under the moved names |
| Sha1.RoundIs | meteor_dalvik/libdex/sha1.cpp:126-130 | a macro that writes two registers is a round of the standard under renamed registers |
| Sha1.SwapIsBig | meteor_dalvik/libdex/sha1.cpp:117-118 | the rotations and masks of blk0 turn a little-endian load into the big-endian word |
| Sha1.CountedIsSum | meteor_dalvik/libdex/sha1.cpp:221-223 | the two words with their carry count bits modulo 2^64 |
| Sha1.Sha1Context.constructor | meteor_dalvik/libdex/sha1.cpp:201-210 | a context that has hashed nothing |
| Sha1.Sha1Context.Update | meteor_dalvik/libdex/sha1.cpp:215-236 | the context after more data is that of the longer message, whenever buffer and data have less than 2^32 bytes |
| Sha1.BufferFits | meteor_dalvik/libdex/sha1.cpp:224 | the 32-bit test for a full buffer decides right exactly if buffer and data have less than 2^32 bytes |
| Sha1.BufferOverruns | meteor_dalvik/libdex/sha1.cpp:224 | lengths that show it: one byte buffered and 2^32 - 1 new ones |
| Sha1.NoWrap | meteor_dalvik/libdex/sha1.cpp:228 | then the 32-bit test of the loop takes exactly the whole blocks |
| Sha1.Sha1Context.HashBlocks | meteor_dalvik/libdex/sha1.cpp:224-234 | the whole blocks are hashed, the first one begun in the buffer |
| Sha1.Sha1Context.Final | meteor_dalvik/libdex/sha1.cpp:241-262 | the digest is the one-shot digest of the whole message, however it was cut into updates |
| Sha1.Filled | meteor_dalvik/libdex/sha1.cpp:254 | the mask tells exactly when the padding is complete |
| Sha1Spec.FoldAppend | meteor_dalvik/libdex/sha1.cpp:228-230 | blocks may be hashed as they come |
| Leb128.ReadUnsigned | meteor_dalvik/libdex/Leb128.h:31-59 | the number and the position behind it, for every input |
| Leb128.ReadSigned | meteor_dalvik/libdex/Leb128.h:66-102 | the sign-extended number and the position behind it |
| Leb128.ReadAndVerifyUnsigned | meteor_dalvik/libdex/Leb128.cpp:32-43 | as ReadUnsigned; okay stays true exactly if all bytes are in the file and none has bits beyond 32 |
| Leb128.ReadAndVerifySigned | meteor_dalvik/libdex/Leb128.cpp:54-65 | the same for signed numbers |
| Leb128.WriteUnsigned | meteor_dalvik/libdex/Leb128.h:133-147 | the shortest encoding is written, and nothing else |
| Leb128.UnsignedSize | meteor_dalvik/libdex/Leb128.h:152-162 | the length of the encoding |
| Leb128.RoundTrip | meteor_dalvik/libdex/Leb128.h:31-162 | what is written reads back and passes the verifying reader |
| DexCatch.DexCatchIterator.constructor | meteor_dalvik/libdex/DexCatch.h:65-79 | the iterator will yield the clauses of the handler at the offset |
| DexCatch.DexCatchIterator.Next | meteor_dalvik/libdex/DexCatch.h:90-106 | yields the next clause, a catch-all last, then nothing |
| DexCatch.DexCatchIterator.GetEndOffset | meteor_dalvik/libdex/DexCatch.cpp:85-90 | the offset behind the handler |
| DexCatch.VerifyHandler | meteor_dalvik/libdex/DexSwapVerify.cpp:1656-1719 | one handler passes exactly if it is well formed and every clause is checked |
| DexCatch.SetHandlerOffsAndVerify | meteor_dalvik/libdex/DexSwapVerify.cpp:1648-1722 | records where each handler begins; succeeds exactly if all pass |
| DexCatch.SwapTriesAndCatches | meteor_dalvik/libdex/DexSwapVerify.cpp:1726-1798 | accepts exactly if handlers are checked and tries are in order, disjoint, inside the code and lead to handlers |
| DexCatch.FindCatchHandlerOffset | meteor_dalvik/libdex/DexCatch.cpp:52-81 | the binary search gives what a scan over all tries gives |
| DexCatch.FindCatchHandler | meteor_dalvik/libdex/DexCatch.h:120-160 | on an accepted code item the iterator walks the handler of the one try that covers the address, and yields checked clauses only |
| DexCatch.CoverIsUnique | meteor_dalvik/libdex/DexSwapVerify.cpp:1752-1795 | at most one try covers an address |
| DexCatch.HandlerChecked | meteor_dalvik/libdex/DexSwapVerify.cpp:1656-1719 | a handler that has passed yields checked clauses only, a catch-all last |
| DexCatch.AcceptedTry | meteor_dalvik/libdex/DexSwapVerify.cpp:1770-1790 | every try of an accepted code item leads to a handler that has been checked |
| DexCatch.GetDexCodeSize | meteor_dalvik/libdex/DexFile.cpp:493-524 | the size up to the end of the handlers, or of the instructions and their padding |
| DexCatch.PaddingIsCounted | meteor_dalvik/libdex/DexFile.cpp:493-524 | code items that show the difference, at any offset: one instruction, no tries, 18 bytes verified and 20 counted |
| DexCatch.CodeSizeAgrees | meteor_dalvik/libdex/DexFile.cpp:493-524 | it ends where the verifier has ended exactly if there are tries or the instructions end on a four-byte boundary |
| PowerOfTwo.RoundUpPower2 | meteor_dalvik/libdex/DexFile.cpp:531-542 | the least power of two that is not below, from 1 to 2^31; 0 for 0 and beyond |
| PowerOfTwo.MaskIsRemainder | meteor_dalvik/libdex/DexFile.cpp:184-193 | masking with a power of two less one is the remainder |
| PowerOfTwo.SmearedIs | meteor_dalvik/libdex/DexFile.cpp:533-539 | the shifts fill all bits below the leading one |
| Probing.AddHolds | meteor_dalvik/libdex/DexFile.cpp:177-204 | a new entry in the first empty slot leaves the table a table of the map with it |
| Probing.Absent | meteor_dalvik/libdex/DexFile.cpp:441-474 | a search that comes to an empty slot has missed nothing |
| Probing.Present | meteor_dalvik/libdex/DexFile.cpp:441-474 | the first entry met with the key is the one the map has |
| ClassTable.DexClassLookup.Add | meteor_dalvik/libdex/DexFile.cpp:177-204 | adds the entry unless its descriptor is there; always ends |
| ClassTable.DexClassLookup.FindClass | meteor_dalvik/libdex/DexFile.cpp:441-474 | the entry first added with the descriptor, or none exactly if there is none; always ends |
| ClassTable.CreateClassLookup | meteor_dalvik/libdex/DexFile.cpp:211-262 | the table of all classes; it has an empty slot exactly if there is a class |
| ClassTable.FirstIsKept | meteor_dalvik/libdex/DexFile.cpp:240-252 | of several classes with one descriptor the first is kept |
| ClassTable.ClassDescriptorHash | meteor_dalvik/libdex/DexFile.cpp:163-171 | the 32-bit hash of the descriptor |
| ZipTable.ZipArchive.AddToHash | meteor_dalvik/libdex/ZipArchive.cpp:105-119 | adds the entry unless its name is there; always ends |
| ZipTable.ZipArchive.FindEntry | meteor_dalvik/libdex/ZipArchive.cpp:425-444 | the first entry with the name, or none exactly if there is none; always ends |
| ZipTable.ParseZipArchive | meteor_dalvik/libdex/ZipArchive.cpp:274-334 | for a long of 32 or 64 bits, succeeds exactly if every directory entry passes; then the table, with a slot to spare, holds the first entry of every name |
| ZipTable.NarrowLong | meteor_dalvik/libdex/ZipArchive.cpp:306-310 | where a long has 32 bits, an entry passes that would not pass otherwise exactly if its local offset is 2^31 or more and it is right in all else |
| ZipTable.FarHeaderPasses | meteor_dalvik/libdex/ZipArchive.cpp:306-310 | a directory that shows it |
| ZipTable.FirstIsKept | meteor_dalvik/libdex/ZipArchive.cpp:286-328 | of several entries with one name the first is kept |
| ZipTable.ComputeHash | meteor_dalvik/libdex/ZipArchive.cpp:92-100 | the 32-bit hash of the name |
| DexDataMap.DataMap.Add | meteor_dalvik/libdex/DexDataMap.cpp:74-88 | appends, but drops an offset that is not beyond the last |
| DexDataMap.DataMap.Get | meteor_dalvik/libdex/DexDataMap.cpp:94-118 | the type added at the offset, or -1 if none was |
| DexDataMap.DataMap.Verify | meteor_dalvik/libdex/DexDataMap.cpp:125-141 | whether an item of the type was added at the offset |
| DexDataMap.DataMap.constructor | meteor_dalvik/libdex/DexDataMap.cpp:28-56 | an empty map |
| DexDataMap.SwapMap | meteor_dalvik/libdex/DexSwapVerify.cpp:395-523 | a data map as large as all data sections together, exactly if the map list passes |
| DexDataMap.IterateSection | meteor_dalvik/libdex/DexSwapVerify.cpp:2387-2440 | succeeds exactly if padding and items pass, and adds every item visited |
| DexDataMap.SwapSection | meteor_dalvik/libdex/DexSwapVerify.cpp:2520-2670 | one section, by its type |
| DexDataMap.SwapEverything | meteor_dalvik/libdex/DexSwapVerify.cpp:2513-2680 | succeeds exactly if all sections pass, and then no addition was dropped or one too many |
| DexDataMap.BuildDataMap | meteor_dalvik/libdex/DexSwapVerify.cpp:2513-2680 | the data map holds exactly the items visited, each with its type |
| DexDataMap.ItemsAscend | meteor_dalvik/libdex/DexSwapVerify.cpp:2395-2433 | items of a section follow each other strictly |
| DexDataMap.SectionIs | meteor_dalvik/libdex/DexSwapVerify.cpp:2479-2502 | the items of a section are as many as the map list says, and lie inside it |
| EncodedValue.VerifyEncodedValue | meteor_dalvik/libdex/DexSwapVerify.cpp:2151-2267 | the mutually recursive pass ends, and gives the position of its definition |
| EncodedValue.VerifyEncodedArray | meteor_dalvik/libdex/DexSwapVerify.cpp:2128-2147 | the same for arrays |
| EncodedValue.VerifyEncodedAnnotation | meteor_dalvik/libdex/DexSwapVerify.cpp:2271-2336 | the same for annotations |
| EncodedValue.ReadUnsignedLittleEndian | meteor_dalvik/libdex/DexSwapVerify.cpp:2110-2125 | the number, or 0 and no movement if its bytes are not all there |
| EncodedValue.AcceptsValue | meteor_dalvik/libdex/DexSwapVerify.cpp:2151-2267 | every printed well-formed value tree is accepted, and the pass ends just behind it |
| EncodedValue.AcceptsArray | meteor_dalvik/libdex/DexSwapVerify.cpp:2128-2147 | the same for arrays |
| EncodedValue.AcceptsAnnotation | meteor_dalvik/libdex/DexSwapVerify.cpp:2271-2336 | the same for annotations |
| EncodedValue.ReadsValue | meteor_dalvik/libdex/DexSwapVerify.cpp:2151-2267 | what is accepted with no index cut off, inside the file, is the printing of a well-formed tree |
| EncodedValue.ReadsArray | meteor_dalvik/libdex/DexSwapVerify.cpp:2128-2147 | the same for arrays |
| EncodedValue.ReadsAnnotation | meteor_dalvik/libdex/DexSwapVerify.cpp:2271-2336 | the same for annotations |
| EncodedValue.AcceptedIsValue | meteor_dalvik/libdex/DexSwapVerify.cpp:2151-2267 | what is accepted inside the file is a well-formed value exactly if no index in it is cut off by the end of the file |
| EncodedValue.CutIndexIsAccepted | meteor_dalvik/libdex/DexSwapVerify.cpp:2110-2125 | a file that shows it: an index of four bytes, none of them there, is accepted |
| EncodedValue.WholeValue | meteor_dalvik/libdex/DexSwapVerify.cpp:2110-2125 | four bytes behind the value are enough for no index to be cut off |
| EncodedValue.SameValue | meteor_dalvik/libdex/DexSwapVerify.cpp:2339-2372 | if the cross-verification accepts, it has walked the same bytes as the first pass |
| Mutf8.VerifyUnit | meteor_dalvik/libdex/DexSwapVerify.cpp:1881-1949 | a byte sequence passes exactly if it is the one form of a code unit |
| Mutf8.VerifyStringData | meteor_dalvik/libdex/DexSwapVerify.cpp:1860-1958 | accepts exactly if the number of units that the item states is encoded there, each in its one form, and a 0 byte follows |
| Mutf8.OnlyString | meteor_dalvik/libdex/DexSwapVerify.cpp:1860-1958 | an item is the encoding of one string only |
| Mutf8.GetReads | meteor_dalvik/libdex/DexUtf.h:40-63 | the unchecked reader reads back a verified unit and steps over it |
| Mutf8.DecodeEncode | meteor_dalvik/libdex/DexUtf.h:40-63 | reading unit by unit up to the terminator gives back the string |
| StringOrder.Utf8Cmp | meteor_dalvik/libdex/DexUtf.cpp:28-47 | the order of the strings of code units that the reader sees, for every pair of strings |
| StringOrder.OrderAgrees | meteor_dalvik/libdex/DexUtf.cpp:28-47 | strcmp and dexUtf8Cmp order two verified strings alike exactly if U+0000 does not meet a one-byte unit where they first differ |
| StringOrder.ZeroIsMisplaced | meteor_dalvik/libdex/DexUtf.cpp:28-47 | two strings on which they disagree |
| StringOrder.UnitOrder | meteor_dalvik/libdex/DexUtf.h:40-63 | the first byte that differs decides between two units |
| Descriptors.TableIsPlain | meteor_dalvik/libdex/DexUtf.cpp:50-55 | the bit table accepts exactly the characters it is said to accept |
| Descriptors.IsValidMemberNameUtf8 | meteor_dalvik/libdex/DexUtf.h:84-99 | accepts exactly a plain unit or a pair of surrogates, and steps over it |
| Descriptors.IsValidMemberNameUtf8Slow | meteor_dalvik/libdex/DexUtf.cpp:58-112 | the same for units of several bytes |
| Descriptors.IsValid | meteor_dalvik/libdex/DexUtf.cpp:151-260 | accepts any string exactly if the units it reads up to the first 0 byte make up a type descriptor, or a class name, with the separator asked for |
| Descriptors.VerifiedMarks | meteor_dalvik/libdex/DexUtf.h:40-63 | on a verified string these are the units it encodes |
| Descriptors.MarksAre | meteor_dalvik/libdex/DexUtf.h:40-63 | the same from any place in it |
| Descriptors.ScanBody | meteor_dalvik/libdex/DexUtf.cpp:214-260 | the last loop accepts exactly names with single separators between them, none first or last |
| Shapes.DescriptorShape | meteor_dalvik/libdex/DexUtf.cpp:151-260 | no name hides a parenthesis, a semicolon or a 0 byte: structure shows in the bytes |
| Shapes.SelfDelimiting | meteor_dalvik/libdex/DexProto.cpp:349-371 | two descriptors that one string goes on with are the same |
| DexIds.GetStringData | meteor_dalvik/libdex/DexFile.h:614-622 | the position behind the first byte without a high bit |
| DexIds.SkipIsNext | meteor_dalvik/libdex/DexFile.h:614-622 | on verified data that is where the verifier found the units |
| DexIds.VerifiedString | meteor_dalvik/libdex/DexFile.h:629-632 | the accessor gives the encoding of the verified units |
| DexIds.CrossVerifyStringId | meteor_dalvik/libdex/DexSwapVerify.cpp:557-578 | passes exactly if the data map knows the string and it is behind the one before |
| DexIds.CrossVerifyTypeId | meteor_dalvik/libdex/DexSwapVerify.cpp:590-611 | passes exactly if the string is a type descriptor and its index above the one before |
| DexIds.ShortyDescMatch | meteor_dalvik/libdex/DexSwapVerify.cpp:628-668 | for any string: whether its first byte has that letter, void only for return types |
| DexIds.VerifyShorty | meteor_dalvik/libdex/DexSwapVerify.cpp:682-716 | passes exactly if the shorty spells the letters of all types |
| DexIds.VerifyParameterOrder | meteor_dalvik/libdex/DexSwapVerify.cpp:725-757 | passes exactly if the first list is lexicographically smaller |
| DexIds.CrossVerifyProtoId | meteor_dalvik/libdex/DexSwapVerify.cpp:671-761 | passes exactly if shorty, list and order are right |
| DexIds.CrossVerify | meteor_dalvik/libdex/DexSwapVerify.cpp:2687-2725 | goes through the sections as the map list has them, and accepts exactly if each that is there passes |
| DexIds.AnyOrder | meteor_dalvik/libdex/DexSwapVerify.cpp:2687-2725 | their order does not matter: if the map list covers them, all strings, types and prototypes have passed |
| DexIds.FitsIsLetter | meteor_dalvik/libdex/DexSwapVerify.cpp:628-668 | on a type descriptor that is its letter, and no void for a parameter |
| DexIds.VerifiedUnits | meteor_dalvik/libdex/DexSwapVerify.cpp:590-597 | what the descriptor check reads in a string of the data map are the units verified there |
| DexIds.ParameterIterator.constructor | meteor_dalvik/libdex/DexProto.cpp:481-490 | an iterator over the whole list |
| DexIds.ParameterIterator.NextIndex | meteor_dalvik/libdex/DexProto.cpp:496-508 | the next index, or none at the end |
| DexIds.StringsAscend | meteor_dalvik/libdex/DexSwapVerify.cpp:565-575 | neighbour by neighbour: any string is behind any earlier one |
| DexIds.TypesAscend | meteor_dalvik/libdex/DexSwapVerify.cpp:600-608 | any type's string index is above any earlier one's |
| DexIds.TypeOrder | meteor_dalvik/libdex/DexSwapVerify.cpp:600-608 | strcmp orders type descriptors as their indices, though strings are sorted by dexUtf8Cmp |
| DexIds.ProtosAscend | meteor_dalvik/libdex/DexSwapVerify.cpp:718-758 | any prototype is above any earlier one |
| DexProto.ProtoOrder | meteor_dalvik/libdex/DexProto.cpp:254-320 | in an accepted file protoCompare of prototypes i and j has the sign of i - j |
| DexProto.ProtoCompare | meteor_dalvik/libdex/DexProto.cpp:254-315 | the order by return type, if asked, then parameter by parameter |
| DexProto.StringCache.Alloc | meteor_dalvik/libdex/DexProto.cpp:36-51 | room for the length asked for, in the buffer or on the heap |
| DexProto.StringCache.constructor | meteor_dalvik/libdex/DexProto.cpp:57-61 | an empty string in the buffer |
| DexProto.DescriptorLength | meteor_dalvik/libdex/DexProto.cpp:138-147 | the first loop asks for exactly the bytes of the descriptor and its terminator |
| DexProto.WriteParameters | meteor_dalvik/libdex/DexProto.cpp:154-159 | the second loop writes exactly the parameters |
| DexProto.GetMethodDescriptor | meteor_dalvik/libdex/DexProto.cpp:133-165 | the cache holds the descriptor and its terminator; no write goes past the room asked for |
| DexProto.MethodDescriptorNextType | meteor_dalvik/libdex/DexProto.cpp:349-371 | the place behind the type, or NULL exactly if no parameter type is there |
| DexProto.TypeEndsOnce | meteor_dalvik/libdex/DexProto.cpp:349-371 | no two places can be that |
| DexProto.ArgumentEnds | meteor_dalvik/libdex/DexProto.cpp:349-371 | behind a whole descriptor that is there, unless it is void |
| DexProto.CompareType | meteor_dalvik/libdex/DexProto.cpp:418-433 | the order of the two types by their chars, signed or not |
| DexProto.CompareToParameters | meteor_dalvik/libdex/DexProto.cpp:380-440 | the order of the parameters against those in the text |
| DexProto.CompareToDescriptor | meteor_dalvik/libdex/DexProto.cpp:443-458 | the order of the prototype against the one the text spells |
| DexProto.NextDescriptor | meteor_dalvik/libdex/DexProto.cpp:514-523 | the next parameter's descriptor, or none |
| DexProto.TextOrder | meteor_dalvik/libdex/DexProto.cpp:443-458 | with unsigned chars that is protoCompare's order; with signed ones exactly if the first parameters that differ do not differ between an ASCII byte and another |
| DexProto.SignedCharsDisagree | meteor_dalvik/libdex/DexProto.cpp:419-430 | two prototypes that the two comparisons order in opposite ways where chars are signed |
| DexProto.CompareToPrinted | meteor_dalvik/libdex/DexProto.cpp:133-165 | comparing with a printed descriptor gives protoCompare's order; in one file, that of the indices |
| DexProto.TextDetermines | meteor_dalvik/libdex/DexProto.cpp:133-165 | a descriptor determines the prototype |
| DexProto.DescriptorsAreUnique | meteor_dalvik/libdex/DexProto.cpp:133-165 | no two prototypes of an accepted file have the same descriptor |
| DexProto.AcceptedIsWellFormed | meteor_dalvik/libdex/DexSwapVerify.cpp:671-716 | types of an accepted prototype are well formed, and no parameter is void |
| ClassDefs.SetDefinedClassBit | meteor_dalvik/libdex/DexSwapVerify.cpp:259-268 | sets the bit of one type, tells whether it was set, and leaves all others |
| ClassDefs.IsClassDescriptor | meteor_dalvik/libdex/DexUtf.cpp:286-292 | accepts exactly the descriptors of classes |
| ClassDefs.VerifyInterfaces | meteor_dalvik/libdex/DexSwapVerify.cpp:1005-1043 | passes exactly if all are classes and none is there twice |
| ClassDefs.CrossVerifyClassDef | meteor_dalvik/libdex/DexSwapVerify.cpp:968-1057 | passes exactly if the item is right and its class not defined before |
| ClassDefs.CrossVerifyClassDefs | meteor_dalvik/libdex/DexSwapVerify.cpp:2734-2746 | passes exactly if every item is right and no class is defined twice |
| ClassDefs.EveryClassIsFound | meteor_dalvik/libdex/DexFile.cpp:211-262 | in an accepted file the lookup gives each class its own definition |
| ClassDefs.FindDefined | meteor_dalvik/libdex/DexFile.cpp:441-474 | so does dexFindClass on the table dexCreateClassLookup makes |
| FirstPass.SwapTypeList | meteor_dalvik/libdex/DexSwapVerify.cpp:1318-1336 | passes exactly if the list is inside the file and all its indices are in range |
| FirstPass.AllPassed | meteor_dalvik/libdex/DexSwapVerify.cpp:2513-2680 | what is in the data map has passed its visitor and ends inside the file |
| FirstPass.LoadedByFirstPass | meteor_dalvik/libdex/DexSwapVerify.cpp:2513-2680 | the cross-verification may rely on every string and list that the data map knows |

## Left out

- Sockets, epoll, timers, netlink, name lookup, daemonising, the control port and the unused zlib streams of tcpmux: the environment says how many bytes a call moves, that it would block, or that the connection is gone; epoll_ctl and allocation succeed.
- A break while the demux side waits for the peer's position: such a session is not resumable (tcpmux.c:880), so runs have none.
- Matching contexts by key, and several contexts in one process: the demux side's `Connected` stands for a connection whose key has matched.
- Events of one epoll batch that reach a context or client burned by an earlier event of the batch.
- MuxContexts.MuxContext.ClientReady: is not called for a client that an earlier event of the same batch has closed while it was connecting; there the test of the socket and EPOLL_CTL_DEL work on descriptor -1.
- ClientLists.ClientPool.Introduced: a connect() that is refused at once closes the client and makes its notice due. In tcpmux.c:410-432 it returns before EPOLL_CTL_ADD, so that EPOLL_CTL_DEL in disconnect_client (485-496) fails and the client stays up and connecting. The theorems cover that as a connect in progress that never finishes.
- MuxContexts.MuxContext.GetClient: an id of 0 is not asked for (see ReadAck).
- MuxContexts.MuxContext.ReadAck: a pair that names client 0 ends with `Rejected`, and so does such a packet in MainR, where the C functions go on with the control client. No endpoint of this program sends one (`NoErrorBranch`).
- MuxContexts.MuxContext.ReadHandshake: the bytes of the key and the search for its context; see `Connected` above.
- MuxContexts.MuxContext.Accept: is called while an id is free, not with MAX_CLIENTS ids in use. The growth of client_table is a map here.
- Freeing of clients and contexts: burning is removal from the table.
- Progress of tcpmux: both sides may run out of karma at once, and a client whose last read ends in end-of-file is not queued again. All statements about runs are safety.
- MuxContexts.MuxContext.Serve: reports of the control port, and the freeing of what is burned behind a batch of events; what ends muxloop is a result.
- MuxContexts.MuxContext.MainR: stops at a position whose debt the ring cannot pay, where the C function goes on with a replay that is wrong. It returns when the connection changes under it, where the C function goes on with the new one in its next call; the peer's key is not read.
- MuxContexts.MuxContext.Meet: clears wkarma before the client may be refused, where get_client does so after; nobody reads it in between.
- MuxContexts.MuxContext.ReadSome: moves rpos before the control client is queued, where mainr does so after; mainw does not read it.
- AtomicCache: weak memory effects and wrap-around of the version, which the code sets aside itself (AtomicCache.cpp:104-106); memory is sequentially consistent and counts are unbounded. Statistics and allocation.
- Sha1.Sha1Context.Update: takes data as long as it and the bytes buffered are less than 2^32 together, which is exactly where its test does not wrap (`BufferFits`). Words have 32 bits. The file tools around SHA-1.
- Leb128.ReadUnsigned: bytes behind the end of the file read as 0; the bitwise or of digit groups is their sum.
- DexDataMap.SwapSection: what a visitor says about an item is a parameter here, too.
- DexDataMap.BuildDataMap: likewise.
- DexDataMap.SwapEverything: what a visitor says about an item is a parameter, as long as each item has at least one byte; `FirstPass` ties it to the visitors of strings and type lists. The set of map types seen is a set, not a word.
- Descriptors.IsValid: a string ends at its first 0 byte or at its end, where 0 is read; a unit cut off there is read with a 0.
- DexProto.CompareToParameters: the text is made of well-formed descriptors, as the asserts of the C function demand.
- DexProto.CompareToDescriptor: likewise.
- DexIds.GetStringData: bytes behind the end of the file read as 0.
- DexIds.CrossVerifyProtoId: strcmp and other calls of the C library are given by what they compute.
- ClassDefs.CrossVerifyClassDefs: as for CrossVerifyClassDef.
- ClassDefs.CrossVerifyClassDef: the checks of class data, annotations and static values are one flag of the item.
- Byte swapping of fields: the little-endian build, where it is the identity. The id tables are given decoded.
- Field and method ids, annotations, debug info, class data and its flags, optimised data, checksums and the header.
- ClassTable.ClassDescriptorHash: takes chars as unsigned, and so does ZipTable.ComputeHash; nothing else depends on the value of a hash.
- C stack depth of the encoded-value verifier, and of all recursion.
- dexProtoGetParameterDescriptors, dexIsValidMemberName and other readers that repeat what is proved about those modelled.
- The central directory search, mmap, inflate and extraction of ZipArchive; a hash table of a file with no entries, which is refused before.
- Argument parsing, meteor_manager, CheckJni, DDM, dexdump and dexlist, bit vectors and opcode tables.
