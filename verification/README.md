# BBgrid: a verified model of the control plane, the multiplexer and connection pairing

BBgrid is a tunnelling proxy platform. This project models three of its state machines in Dafny and
proves what they keep over every run.

**Control plane.** Events enter `EventBusImpl`, a bounded FIFO queue per resource type. The handlers
of `Core` apply them to `StateStoreImpl` and write them through to `StorageManager` (append-only log,
`MetaStore`, snapshots). `ReconcileEngine` compares desired with actual resources and publishes
repairs onto the same bus. `PersistPlugin` rebuilds everything at start-up. Main results:

- stored resources and the left-to-right replay of the log agree under every interleaving of the
  workers, and each live map with them whenever its worker is idle; a clean restart rebuilds exactly
  the maps the log leads to, for every interleaving of queued events with restoring and whatever a
  full queue drops (`Restart.LifeAgrees`, `Restart.CleanRestart`);
- the lossy feedback loop converges, passes overlapping with the handling of older repairs, and then
  it goes quiet (`Converge.Converges`, `Converge.PassGains`, `Converge.StaysQuiet`);
- the port index is sound and desired and actual maps are in lockstep over every run of the store
  (`StoreLaws.StoreRunLaws`);
- bus delivery, snapshot cadence and retention, log recovery after a crash at any byte, reconcile
  accounting and backoff.

**Multiplexer.** A length-prefixed framing protocol with credit-based flow control. Main results: the
wire round trip under any interleaving of writers and any pattern of short writes
(`Wire.WriteSession`, `Wire.ReadLoop`) and exactly how far it survives write errors
(`Wire.SessionInStepIff`), credit conservation in every reachable state of the two-ended
system (`Credit.CreditConserved`), no starvation when reads cover whole frames and starvation for good
when they do not (`Credit.NoStarvation`, `Credit.PartialReadsStarve`), and the reader's byte stream
(`Flow.StreamIsConcatenation`).

**Pairing.** Lock-protected maps of one-shot channels on which accepting, expiry, timeouts and
registering again race (`Pairing.PairingSafe`), and the one accept loop per proxy.

Objects whose methods update fields are classes here, each method proved against a function of the old
state; the laws are lemmas about those functions and about runs of them. Protocols are step machines
whose steps are the atomic actions of the goroutines. Clocks, random IDs, map iteration orders, short
reads and writes and disk failures are parameters: the statements hold for all of them.

Where a property one would expect is false of the code, the code is kept, a lemma shows an input, and
another gives the exact condition:

- frames of one port can overtake each other, unless there is a single worker (`Delivery.InOrderIffOneWorker`);
- a window update that fails half written is followed by further frames, and a data or control frame
  that does is followed by the window updates waiting for the lock, all of which the peer then misreads
  (`Wire.SessionInStepIff`, `Wire.TornWindowUpdateMisleads`, `Wire.LateUpdateMisleads`);
- two senders on a channel overdraw its window (`Credit.NeverOverdrawnIffOneSender`);
- partly read frames and failed window updates never return credit (`Credit.SpoiledIsLost`);
- a CLOSE frame closes the local channel at one of three places that send it (`Mux.Multiplexer.WriteControl`);
- publishers overtaking each other disorder sequence numbers (`SplitPublish.IncreasingIff`);
- deleting a client that has proxies, or giving a port to a second client, makes the port index incomplete
  (`PortIndex.CompleteThroughoutIff`, and at any one moment `PortIndex.PortsCompleteIff`);
- a save whose file name sorts before five others, as when the clock steps back or gains a digit, removes
  its own file, and two saves in one millisecond share a file (`Snapshots.SaveKeepsOwnIff`,
  `Snapshots.RetentionIff`, `Snapshots.RepeatedMillisecond`);
- a restart without a clean shutdown, from an older snapshot, can bring back deleted or outdated entries
  (`Restart.CrashRestartIff`);
- the backoff product wraps from 30 failures on (`Backoff.DelayRightIff`);
- repairing a relay drops its token (`Converge.RelayRepairFaithfulIff`);
- the delete of a timed-out relay end can cut off somebody else's waiter (`Pairing.RelayDeleteOrphansIff`), and
  an accepted connection can be left with a waiter that has gone (`Pairing.StrandedIff`);
- a failed start of an accept loop blocks its proxy key (`Pairing.StepBlocksIff`).

The code also differs from its documentation in that only failed creations are backed off; the project
README announces backoff for failed deletions too, which `reconcile.go` retries in every pass. The model
follows the code.

`dafny verify dfyconfig.toml` checks the whole project.

## Model

| member | source | states |
|---|---|---|
| `Wire.RoundTrip` | common/mux/mux.go:351-401 | Frames written one after another are decoded first, in order and unchanged, whatever bytes follow them. |
| `Wire.CutStream` | common/mux/mux.go:351-401 | A byte stream cut anywhere decodes to exactly the frames that were complete. |
| `Wire.DecodeSound` | common/mux/mux.go:351-401 | The decoder invents nothing: for every input, re-encoding its frames gives back a prefix of that input. |
| `Wire.Layout` | common/mux/mux.go:253-268 | Every byte of a frame: 0xAE 0x01, then port, length and type, each big-endian, then the data. |
| `Wire.CallLayout` | common/mux/mux.go:253-301 | What each writer puts on the wire: type 0 or 1 with the data, the given type with no data, type 3 with the credit big-endian. |
| `Wire.FillHeader` | common/mux/mux.go:265-268 | The four in-place PutUint16 calls leave the eight header bytes and nothing else at the head of the buffer. |
| `Wire.WriteAll` | common/mux/mux.go:271-277 | The retry loop succeeds exactly when no Write fails, however short the writes are; on failure some prefix of the buffer is on the wire. |
| `Wire.TookMeans` | common/mux/mux.go:271-277 | A writer's success means that none of the Write calls it made failed, its failure that one did. |
| `Wire.WriteFrame` | common/mux/mux.go:253-279 | An oversized frame is refused with nothing written; otherwise success is exactly the absence of write errors, with the whole encoding on the wire, and failure leaves a prefix of it. |
| `Wire.WriteCtrl` | common/mux/mux.go:282-301 | A control frame is encoded with an empty payload; it succeeds exactly without write errors, and a failed write leaves a prefix of it. |
| `Wire.WriteWindowUpdate` | common/mux/mux.go:687-703 | A WINDOW_UPDATE frame carries its four payload bytes; it succeeds exactly without write errors, and a failed write leaves a prefix of it. |
| `Wire.ReadFull` | common/mux/mux.go:355-361 | All n bytes however the stream is chunked, or failure exactly when the stream holds fewer. |
| `Wire.ReadLoop` | common/mux/mux.go:351-401 | readLoop hands over exactly the frames that decoding the whole incoming stream gives, for any chunking. |
| `Wire.WriteSession` | common/mux/mux.go:148-301 | For every sequence of calls under writeLock and every set of window updates waiting for it when a data or control frame fails: without write errors all calls succeed and the peer decodes exactly their frames, under every pattern of short writes; otherwise writing goes on behind failed window updates, and behind the failed data or control frame with the waiting window updates, and the peer decodes exactly the complete frames unless one before the last was torn. |
| `Wire.LastMayTear` | common/mux/mux.go:351-401 | As long as only the last write is torn, the peer decodes exactly the complete frames, those of calls that failed after their last byte included. |
| `Wire.InStepIff` | common/mux/mux.go:351-401 | Whatever is written next is decoded as written exactly when no frame so far was torn. |
| `Wire.SessionInStepIff` | common/mux/mux.go:158-224 | In a session every write finds the peer in step exactly when no frame before it was torn, of whatever kind; behind the one torn data or control frame that ends writeLoop only window updates are written. |
| `Wire.TornWindowUpdateMisleads` | common/mux/mux.go:672-681 | Three bytes of a window update followed by a complete data frame: the peer decodes one frame, on a port nobody wrote to, and loses the data. |
| `Wire.LateUpdateMisleads` | common/mux/mux.go:210-224 | A data frame that fails twelve bytes before its end, then a window update that was waiting for the lock: the peer decodes one data frame on the right port that ends in the bytes of the update. |
| `Wire.PartialTail` | common/mux/mux.go:253-279 | A partly written last frame disappears in decoding unless its last byte was written. |
| `Flow.CreditRoundTrip` | common/mux/mux.go:478-491 | The credit read from a WINDOW_UPDATE payload is the int32 that was put into it. |
| `Flow.AccumulateIff` | common/mux/mux.go:648-684 | Credit leaves exactly when the accumulated bytes reach 16384 or 10 ms have passed, and then all of it leaves. |
| `Flow.ReadTakesPrefix` | common/mux/mux.go:756-786 | One Read takes its bytes off the front of the unread stream, reports EOF only when closed with nothing unread, and returns no bytes for a non-empty buffer only on an empty frame. |
| `Flow.WholeFrameIff` | common/mux/mux.go:739-786 | One Read returns bytes of one frame only, as many as fit, and takes it whole exactly when it starts on a fresh frame no longer than the buffer. |
| `Flow.StreamIsConcatenation` | common/mux/mux.go:739-786 | For every sequence of deliveries, reads of any size and closing, returned plus unread bytes are the concatenated frames in arrival order; after EOF everything delivered was returned. |
| `Credit.StepKeepsInv` | common/mux/mux.go:403-538 | Every atomic step of senders, writeLoop, readLoop, workers and reader keeps the credit invariant. |
| `Credit.RunKeepsInv` | common/mux/mux.go:403-538 | The credit invariant holds in the last state of every run. |
| `Credit.CreditConserved` | common/mux/mux.go:432-538 | In every reachable state window, data under way, credit lost for good (partly read frames, failed window updates) and credit under way sum to 1048576; with one sender the window stays within 0..2^20 and at most 2^20 bytes are under way. |
| `Credit.WindowBounds` | common/mux/mux.go:506-538 | With Sends below 2^31 bytes no int32 of the protocol leaves its range. |
| `Credit.TwoSendersOverdraw` | common/mux/mux.go:519-534 | Checking and debiting the window are separate atomic operations: with two senders of small frames a run without a refused frame drives it negative. |
| `Credit.NeverOverdrawnIffOneSender` | common/mux/mux.go:519-534 | With Sends below 2^31 bytes the window never goes negative exactly when a channel has one sender at a time. |
| `Credit.OneSendOverdrawsIff` | common/mux/mux.go:519-532 | One Send alone passes the int32 check and overdraws the window exactly when its length lies between 2^31 and 2^31 plus the window. |
| `Credit.NoDeadlock` | common/mux/mux.go:403-538 | Until everything is drained some internal step is enabled: the bounded queues cannot deadlock. |
| `Credit.InternalStepsEnd` | common/mux/mux.go:403-538 | Every internal step decreases a measure, so internal activity ends. |
| `Credit.DrainedWindow` | common/mux/mux.go:648-684 | After draining, the window is 2^20 minus what partial reads and failed window updates cost and what is still accumulating. |
| `Credit.NoStarvation` | common/mux/mux.go:506-538 | When every Read covers a whole frame and window updates can be written, after draining the window exceeds 2^20 - 2^14 and any frame up to the maximal size passes Send's wait loop. |
| `Credit.CanDrain` | common/mux/mux.go:403-538 | From every such state internal steps alone lead to a drained one, or to a refused oversized frame. |
| `Credit.QueuesBounded` | common/mux/mux.go:107-112 | In every reachable state the send queue and the work channel hold at most 64 frames, the workers 4 and the data channel 32. |
| `Credit.RefusedIff` | common/mux/mux.go:253-256 | writeLoop stops at a frame exactly when its data is longer than 65535 bytes. |
| `Credit.SpoiledIsLost` | common/mux/mux.go:674-678 | Credit of partly read frames and of window updates that could not be written never comes back. |
| `Credit.DrainedSendIff` | common/mux/mux.go:519-532 | In a drained state a frame passes the window check exactly when it fits what partial reads and accumulation left. |
| `Credit.PartialReadsStarve` | common/mux/mux.go:775-784 | A concrete run of partial reads leaves a drained channel that admits 16 bytes and no more. |
| `Delivery.OneWorkerInOrder` | common/mux/mux.go:403-476 | With a single worker the reader gets, in every run, a prefix of the bytes in the order they were enqueued. |
| `Delivery.TwoWorkersReorder` | common/mux/mux.go:130-132 | With two or more workers a run exists in which the reader gets a later frame without the earlier one. |
| `Delivery.InOrderIffOneWorker` | common/mux/mux.go:130-132 | Of 1 to 4 workers, exactly one worker guarantees in-order delivery on a port. |
| `Mux.Multiplexer.OpenChannel` | common/mux/mux.go:590-613 | One channel per port: an open port returns its channel unchanged, a free one gets a full window and queues an OPEN frame, a closed multiplexer refuses. |
| `Mux.Multiplexer.CloseChannelLocal` | common/mux/mux.go:623-645 | The port is forgotten and queued frames discarded; delivered frames stay readable; a second close changes nothing. |
| `Mux.Multiplexer.WriteControl` | common/mux/mux.go:154-248 | A queued control frame goes out as encoded, or a prefix of it and the multiplexer closes. A CLOSE frame closes the local channel exactly when it is received at the start of a writeLoop round; the two other receive sites leave the channel open. |
| `Mux.Multiplexer.HandleWindowUpdate` | common/mux/mux.go:478-491 | Credit is added to that port's window only, with int32 wrap-around. |
| `Mux.Multiplexer.DispatchData` | common/mux/mux.go:432-476 | A DATA frame reaches its open port, a port created for it, or nobody; it waits when the port's buffer is full. |
| `Mux.Multiplexer.Dispatch` | common/mux/mux.go:417-430 | A frame changes no port but its own, and each frame type has exactly its one effect on that port's channel. |
| `Mux.Multiplexer.Send` | common/mux/mux.go:506-538 | Send debits the window exactly when the check passes and then enqueues, waits, or reports closing; a channel closed in between keeps the debit. |
| `Mux.Multiplexer.SendWindowUpdate` | common/mux/mux.go:648-684 | Consumed bytes accumulate in int32; an open channel writes a WINDOW_UPDATE frame exactly when the sum reaches 16384 or 10 ms have passed since the last one, with the whole sum in it and nothing left pending; otherwise the wire is untouched. A failed write leaves a prefix of the frame and does not close the multiplexer. |
| `Mux.Multiplexer.Read` | common/mux/mux.go:756-786 | Read fills the caller's buffer from the front of the unread stream, touches nothing beyond it, and returns credit only for a frame taken whole. |
| `Bytes.Copy` | common/wsconn/wsconn.go:109-116 | Copying into a buffer fills its front with as many bytes as both sides allow and leaves the rest. |
| `WsConn.WsConn.ReadCurrent` | common/wsconn/wsconn.go:109-116 | bytesReader takes its bytes off the front of the current message and reports EOF exactly at its end. |
| `WsConn.WsConn.Read` | common/wsconn/wsconn.go:34-58 | Bytes come off the front of the message stream, empty messages are skipped, and without an error a non-empty buffer gets at least one byte. |
| `TunnelAuth.WriteTunnelAuth` | common/proto/tunnel.go:27-40 | Tokens above 256 bytes are refused unwritten; otherwise success is the success of one Write, and on a connection that reports short writes it means the whole handshake is out. |
| `TunnelAuth.ReadTunnelAuth` | common/proto/tunnel.go:45-69 | Accepts exactly the well-formed headers of up to 256 bytes and leaves the rest of the stream unread. |
| `TunnelAuth.HandleTunnelConn` | BBgrid_Server/dataplane/server.go:73-103 | The data plane's own decoder accepts any 16-bit length and leaves the rest of the stream unread. |
| `TunnelAuth.AuthLayout` | common/proto/tunnel.go:25-40 | A handshake is the bytes TUNL, the big-endian length and the token. |
| `TunnelAuth.AuthRoundTrip` | common/proto/tunnel.go:27-69 | Every writable token is read back by both decoders, whatever follows it. |
| `TunnelAuth.TruncatedAuthRejected` | common/proto/tunnel.go:45-69 | A handshake cut anywhere is accepted by neither decoder. |
| `TunnelAuth.DecodersDiffer` | BBgrid_Server/dataplane/server.go:73-103 | The two decoders differ exactly on complete handshakes with a token above 256 bytes. |
| `Keys.AtoiFormat` | BBgrid_Server/session/server.go:880-890 | strconv.Atoi reads back what %d prints, for every int64. |
| `Keys.ProxyKeyInjective` | BBgrid_Server/runtime/statestore.go:558-560 | Proxy keys determine client and port, for all client IDs including those with colons. |
| `Keys.ParseClientIDFromKey` | BBgrid_Server/runtime/statestore.go:562-570 | The backwards scan returns the part before the last '-' or ':'. |
| `Keys.KeysSpelled` | BBgrid_Server/runtime/statestore.go:558-560 | Client a with port 8 has the keys a:8 and a-8; resource keys join their parts with slashes. |
| `Keys.ClientOfKeyInverts` | BBgrid_Server/runtime/statestore.go:562-570 | Both key forms give the client back exactly for ports printed without a sign. |
| `Keys.ParseProxyResourceKeyInverts` | BBgrid_Server/session/server.go:880-890 | The session layer recovers client and port from a key exactly for non-empty colon-free client IDs, and never anything else for IDs with a colon. |
| `Keys.ParseProxyResourceKeyIff` | BBgrid_Server/session/server.go:880-890 | A key is recovered exactly when a non-empty part without colon, a colon and an int64 make it up. |
| `Keys.ParseResourceKeyInverts` | common/proto/event.go:27-45 | Parsing inverts printing exactly for keys with three non-empty parts and no slash in type or namespace. |
| `Keys.ParseResourceKeyIff` | common/proto/event.go:35-45 | What parses are exactly the printed forms of keys with three non-empty parts and no early slash. |
| `Keys.ToStringInjective` | common/proto/event.go:27-32 | Within one type and namespace printed keys name distinct resources. |
| `Events.ProxyJsonRoundTrip` | plugins/persist/persist.go:252-277 | Decoding the JSON object of a proxy gives the proxy back. |
| `Events.ProxyFieldSet` | plugins/persist/persist.go:252-277 | Each JSON name sets its own field of a decoded proxy, a value of the wrong type counts as absent, and other names set nothing. |
| `Events.RelayFieldSet` | plugins/persist/persist.go:279-313 | The same for relays. |
| `Events.RelayIdRead` | BBgrid_Server/runtime/statestore.go:495-510 | Restoring prefers a textual id to session_id, while parsing reads session_id only. |
| `Events.SessionJsonRoundTrip` | plugins/persist/persist.go:279-313 | Both relay decoders give back every persisted field of a written session. |
| `Events.RelayJsonRoundTrip` | BBgrid_Server/runtime/statestore.go:498-547 | Restore gives back every field of a written desired relay. |
| `Events.OtherFieldsIgnored` | plugins/persist/persist.go:279-313 | Fields with other names do not disturb the relay decoders. |
| `Events.PayloadJsonRoundTrip` | BBgrid_Server/runtime/statestore.go:572-600 | parseProxyFromPayload gives the same proxy before and after a payload's trip through the disk. |
| `StateStore.StateStoreImpl.ApplyEvent` | BBgrid_Server/runtime/statestore.go:282-300 | Apply dispatches by type and changes the seven maps as the functional description of Apply says. |
| `StateStore.StateStoreImpl.ApplyClientEvent` | BBgrid_Server/runtime/statestore.go:303-362 | ADDED keeps a present connection and its times and takes address and host from the payload, or files a fresh entry; MODIFIED sets host and latency where given; DELETED takes the client's ports and tunnel tokens along; other clients are untouched. |
| `StateStore.StateStoreImpl.ApplyProxyEvent` | BBgrid_Server/runtime/statestore.go:365-402 | ADDED files a proxy in actual, desired and port maps; DELETED removes it by resource name. |
| `StateStore.StateStoreImpl.ApplyRelayEvent` | BBgrid_Server/runtime/statestore.go:405-431 | ADDED files a relay in actual and desired maps; DELETED removes it from both. |
| `StateStore.StateStoreImpl.DropPorts` | BBgrid_Server/runtime/statestore.go:346-352 | Deleting while ranging removes exactly the ports of that client. |
| `StateStore.StateStoreImpl.DropTokens` | BBgrid_Server/runtime/statestore.go:353-360 | Deleting while ranging removes exactly the tokens whose key belongs to that client. |
| `StateStore.StateStoreImpl.Restore` | BBgrid_Server/runtime/statestore.go:454-554 | For some order of each section, the state after Restore is the result of restoring the entries one by one. |
| `StateStore.RestoredProxyEntries` | BBgrid_Server/runtime/statestore.go:454-554 | Whatever else a snapshot holds, each entry with client and port is desired afterwards as it is stored, and no other key changes. |
| `StateStore.RestoredRelayEntries` | BBgrid_Server/runtime/statestore.go:454-554 | The same for relay entries with an ID. |
| `StateStore.StateStoreImpl.SetClientConn` | BBgrid_Server/runtime/statestore.go:219-232 | The connection is set on an existing entry or on a fresh one; nothing else changes. |
| `StateStore.StateStoreImpl.FindTableByWSToken` | BBgrid_Server/runtime/statestore.go:195-210 | A token resolves to the connected client its key belongs to, or to nothing. |
| `StateStore.StateStoreImpl.GetDesiredProxies` | BBgrid_Server/runtime/statestore.go:236-247 | Each desired proxy with a client and a port is listed once, and no other. |
| `StateStore.StateStoreImpl.GetDesiredRelays` | BBgrid_Server/runtime/statestore.go:249-260 | Each desired relay with an ID is listed once, and no other. |
| `StateStore.StateStoreImpl.ListProxies` | BBgrid_Server/runtime/statestore.go:149-166 | Each actual proxy is listed once. |
| `StateStore.StateStoreImpl.ListRelaySessions` | BBgrid_Server/runtime/statestore.go:185-193 | Each relay session is listed once. |
| `StoreLaws.StoreRunLaws` | BBgrid_Server/runtime/statestore.go:282-554 | Over every run of the store's methods: entries lie under the keys their fields spell, every indexed port leads to a proxy of that client on that port, and with canonical restored keys desired and actual maps are in lockstep. |
| `StoreLaws.ApplyKeeps` | BBgrid_Server/runtime/statestore.go:282-431 | Each event keeps keys, port soundness and lockstep. |
| `StoreLaws.RestoreKeeps` | BBgrid_Server/runtime/statestore.go:454-554 | Restore keeps keys and port soundness, and lockstep when the data carries canonical keys. |
| `StoreLaws.ClientGone` | BBgrid_Server/runtime/statestore.go:346-362 | After a client's DELETED event no port or tunnel token leads to it, and no other client loses any. |
| `PortIndex.AddKeepsCompleteIff` | BBgrid_Server/runtime/statestore.go:379-379 | Adding a proxy keeps a complete port index complete exactly when no other client holds the port. |
| `PortIndex.DeleteKeepsComplete` | BBgrid_Server/runtime/statestore.go:393-402 | Deleting from a complete port index keeps it complete. |
| `PortIndex.ClientGoneKeepsCompleteIff` | BBgrid_Server/runtime/statestore.go:346-362 | A client's DELETED event keeps a complete port index complete exactly when the client has no proxies. |
| `PortIndex.RestoreCompleteIff` | BBgrid_Server/runtime/statestore.go:454-496 | Restoring keeps a complete port index complete exactly when no port would get two clients from present proxies and restorable entries. |
| `PortIndex.StepCompleteIff` | BBgrid_Server/runtime/statestore.go:219-554 | For every operation on a complete port index, the guard that says exactly when it stays complete. |
| `PortIndex.CompleteThroughoutIff` | BBgrid_Server/runtime/statestore.go:219-554 | In every run the port index leads to all proxies all the time exactly when no client with proxies is deleted and no port is given to a second client. |
| `PortIndex.StepLedger` | BBgrid_Server/runtime/statestore.go:219-554 | What each operation adds to and removes from the proxies that cannot be found, in terms of the filed proxies alone, in every state. |
| `PortIndex.PortsCompleteIff` | BBgrid_Server/runtime/statestore.go:219-554 | In every run the operations alone determine which proxies cannot be found by port; the index is complete exactly when there are none. |
| `PortIndex.SharedPortLosesEntry` | BBgrid_Server/runtime/statestore.go:396-398 | Two clients on one port: deleting the second proxy leaves the first without a port entry. |
| `EventBus.EventBusImpl.PublishEvent` | BBgrid_Server/runtime/eventbus.go:41-98 | A number is drawn unless the bus is closed; the event is queued unless nobody subscribed or the queue holds 256. |
| `EventBus.EventBusImpl.Subscribe` | BBgrid_Server/runtime/eventbus.go:100-105 | A handler is appended to those of its type, and no other type changes. |
| `EventBus.EventBusImpl.Unsubscribe` | BBgrid_Server/runtime/eventbus.go:108-120 | Removes the first registration of the handler and keeps the order of the others. |
| `EventBus.EventBusImpl.DeliverNext` | BBgrid_Server/runtime/eventbus.go:123-151 | The oldest event of the type goes to all handlers subscribed to it, each once and in subscription order, and leaves the queue. |
| `EventBus.EventBusImpl.Close` | BBgrid_Server/runtime/eventbus.go:154-175 | Nothing more is accepted, and everything accepted is delivered before Close returns. |
| `EventBus.BusRunInv` | BBgrid_Server/runtime/eventbus.go:41-175 | Over every run numbers increase, each type's queue is FIFO and bounded, and calls are those of the deliveries. |
| `EventBus.BusDelivery` | BBgrid_Server/runtime/eventbus.go:41-151 | Over every run a type's events come out once each, in publish order, with increasing numbers; an accepted event is delivered or still queued, never both. |
| `EventBus.CallsMade` | BBgrid_Server/runtime/eventbus.go:126-148 | Over every run each delivery calls, with the oldest queued event, exactly the handlers that were subscribed and not unsubscribed before, in order; no other operation calls any. |
| `EventBus.DroppedIff` | BBgrid_Server/runtime/eventbus.go:41-98 | An event is dropped exactly when the bus is closed, its type has no subscription, or its queue holds 256. |
| `EventBus.PublishedFate` | BBgrid_Server/runtime/eventbus.go:41-98 | In every run a published event is among the accepted ones, under the number it drew, exactly when at that moment the bus was open, its type subscribed and its queue below 256. |
| `EventBus.DrainedMeansDelivered` | BBgrid_Server/runtime/eventbus.go:154-175 | With an empty queue everything accepted of that type has been delivered, in order. |
| `EventBus.PublishIsNumberThenEnqueue` | BBgrid_Server/runtime/eventbus.go:48-90 | Numbering and enqueueing back to back are Publish. |
| `EventBus.OvertakingDisorders` | BBgrid_Server/runtime/eventbus.go:48-90 | Two publishers whose second sections overtake each other leave decreasing numbers in the queue. |
| `SplitPublish.SplitDelivery` | BBgrid_Server/runtime/eventbus.go:41-98 | Over every run with Publish split into its two sections queues stay FIFO and bounded and every accepted event is delivered or queued. |
| `SplitPublish.AcceptedAre` | BBgrid_Server/runtime/eventbus.go:64-96 | A type's accepted events are those its second sections put into the queue, in that order. |
| `SplitPublish.IncreasingIff` | BBgrid_Server/runtime/eventbus.go:48-90 | Over every such run a type's accepted numbers increase exactly when the second sections that fill its queue run in the order of the first sections they belong to. |
| `SplitPublish.SplitFate` | BBgrid_Server/runtime/eventbus.go:41-98 | Over every such run the event of a publish that drew a number is ever accepted exactly when its own second section has run with the queues open and fewer than 256 events queued. |
| `SplitPublish.InHandIff` | BBgrid_Server/runtime/eventbus.go:41-98 | It is in hand exactly when its type was subscribed at the first section and its second section has not run. |
| `Snapshots.SortFiles` | common/store/snapshot.go:199-207 | The in-place exchange sort yields a sorted permutation. |
| `Snapshots.SnapshotStore.LoadLatest` | common/store/snapshot.go:135-175 | The running maximum finds a file of the largest positive timestamp, or none if there is none. |
| `Snapshots.SnapshotStore.CleanupOldSnapshots` | common/store/snapshot.go:178-196 | What remains are the largest file names, as many as are to be kept, with their contents. |
| `Snapshots.SnapshotStore.Save` | common/store/snapshot.go:52-99 | A successful save files the snapshot under its millisecond, then cleans up; a failed one changes nothing. |
| `Snapshots.FileNameOrder` | common/store/snapshot.go:70-70 | For timestamps of equal length file-name order is time order. |
| `Snapshots.SaveKeepsNewest` | common/store/snapshot.go:52-99 | One more save moves the directory from the newest five to the newest five. |
| `Snapshots.Retention` | common/store/snapshot.go:52-99 | After any number of saves on a steady clock exactly the newest min(n, 5) snapshots remain, contents intact. |
| `Snapshots.ReloadFindsLast` | common/store/snapshot.go:135-175 | A store opened on that directory starts from the last snapshot saved. |
| `Snapshots.SaveKeepsOwnIff` | common/store/snapshot.go:52-99 | On any clock a save keeps the file it has just written exactly when fewer than five files on disk sort after it. |
| `Snapshots.RetentionByName` | common/store/snapshot.go:52-99 | On any clock, after any number of saves, the directory holds the five largest of all names used, each with the last snapshot saved under it. |
| `Snapshots.RetentionIff` | common/store/snapshot.go:52-196 | On any clock the directory holds exactly the newest five snapshots, each in a file of its own, precisely when their names are distinct and every older name sorts before all of them or is one of them. |
| `Snapshots.RepeatedMillisecond` | common/store/snapshot.go:70-75 | Two saves in one millisecond leave one file, holding the second snapshot. |
| `Snapshots.ReopenFindsSavedIff` | common/store/snapshot.go:135-175 | A store opened after a save starts from the saved snapshot exactly when the save kept its file and no file kept is later. |
| `Snapshots.AheadIsFound` | common/store/snapshot.go:52-175 | With the clock ahead of everything on disk, in value and in the order of names, it always does. |
| `Snapshots.SteadyIsAhead` | common/store/snapshot.go:70-70 | A larger time printed with as many digits as those on disk puts the clock ahead. |
| `Snapshots.RolloverDropsNewest` | common/store/snapshot.go:199-207 | When the clock gains a digit, names sort against time and the cleanup removes the snapshot just saved. |
| `EventLog.SplitLines` | common/store/event.go:200-213 | The loop splits at newlines, without an empty line at the end. |
| `EventLog.LinesOfFile` | common/store/event.go:58-92 | Appended newline-free records come back whole and in order, followed by what is left at the end. |
| `EventLog.RejoinLines` | common/store/event.go:200-213 | Rejoining the lines gives the file back, up to a missing final newline. |
| `EventLog.CutFile` | common/store/event.go:127-157 | A file cut after any byte yields all complete records and at most one torn line. |
| `EventLog.LoadEvents` | common/store/event.go:127-157 | Loading yields the decodable lines in order, and the largest sequence number among them. |
| `EventLog.DecodedLines` | common/store/event.go:127-157 | Every non-empty line that decodes gives its event, in order; no other line gives any. |
| `EventLog.LogRoundTrip` | common/store/event.go:58-157 | After a crash at any byte, exactly the complete events come back in order, plus at most a torn one that happens to decode; without a crash, all of them. |
| `Storage.EventStore.Append` | common/store/event.go:58-92 | A failed write still uses up its sequence number; a successful one appends the numbered event. |
| `Storage.MetaStore.Put` | common/store/meta.go:45-60 | The resource is filed in memory under its printed key even when saving fails. |
| `Storage.MetaStore.Delete` | common/store/meta.go:77-90 | The resource is gone from memory; an unknown type is left as it is. |
| `Storage.MetaStore.Get` | common/store/meta.go:63-74 | Finds the resource under its printed key. |
| `Storage.MetaStore.ListAll` | common/store/meta.go:110-123 | The entry-by-entry copy equals the original. |
| `Storage.StorageManager.AppendEventAndSave` | common/store/manager.go:106-130 | Log, counter and resources change as specified on each outcome; a due snapshot is of the resources before the triggering put. |
| `Storage.StorageManager.DeleteResource` | common/store/manager.go:133-156 | The resource is dropped first, then a DELETED record is logged; a due snapshot is of the resources without it. |
| `Storage.StorageManager.CreateSnapshot` | common/store/manager.go:159-196 | The saved state is a snapshot of the resources: one section per type, proxies and relays under bare names. |
| `Storage.StorageManager.Close` | common/store/manager.go:199-222 | The last snapshot is of all current resources; with the clock ahead of the snapshots on disk its file is there and is the one loading chooses. |
| `Storage.CloseAndReopen` | common/store/manager.go:31-66 | Closing and opening the directory again starts from a snapshot of everything stored at the end. |
| `Storage.Cadence` | common/store/manager.go:115-127 | After n logged operations on a fresh manager the counter is n mod interval and exactly floor(n/interval) snapshots were attempted. |
| `Storage.NormalOfDefault` | common/store/manager.go:165-188 | A resource of the default namespace is re-filed under its bare name, the nameless one under its full key. |
| `Storage.NormalNameIs` | common/store/manager.go:159-187 | In a snapshot a key of three non-empty parts becomes its last part and any other key stays as it is. |
| `Storage.SectionsNamed` | common/store/manager.go:159-187 | Proxies and relays get sections of their own names; every other type keeps its name and contents. |
| `Storage.DefaultNamesKeptIff` | common/store/manager.go:165-188 | A snapshot section keeps every default-namespace resource exactly when no nameless resource meets one whose name spells its key. |
| `Storage.NamedEntryKept` | common/store/manager.go:165-188 | Without that clash every named resource is in the section under its name, unchanged. |
| `Core.Core.HandleResource` | BBgrid_Server/runtime/core.go:66-103 | Apply, write-through unless restoring, trigger; with no storage error the three representations change together, and a due snapshot replays the log up to at most the triggering put. |
| `Core.StoresPut` | common/store/meta.go:45-60 | Putting under the printed key keeps a section an exact image of the live map. |
| `Core.StoresDrop` | common/store/meta.go:77-90 | Deleting the printed key keeps a section an exact image of the live map. |
| `Core.LogStoredPush` | BBgrid_Server/runtime/core.go:66-103 | Recording a canonical event keeps the stored resources equal to what the log means. |
| `Core.LivePush` | BBgrid_Server/runtime/core.go:66-103 | A canonical event changes the live desired maps as its record changes the replay of the log. |
| `Core.Core.Persist` | BBgrid_Server/runtime/core.go:71-84 | The write-through half: an ADDED event is logged and put, a DELETED one dropped and logged, a MODIFIED one leaves everything alone; a due snapshot replays the log up to at most the triggering put. |
| `Core.WorkStepKeeps` | BBgrid_Server/runtime/core.go:66-103 | Applying and writing through are separate steps of the workers of each type, interleaved at will with those of other types and of clients: every step keeps stored resources and log in agreement, and each live map is what the log leads to, counting only the event its own worker has still to write. |
| `Core.HandlesKeepsAgreement` | BBgrid_Server/runtime/core.go:66-103 | Handled with nobody in between, an event keeps live desired maps, stored resources and log replay in agreement. |
| `Restart.PersistPlugin.RestoreFromMetaStore` | plugins/persist/persist.go:192-250 | Publishes one ADDED event for every stored proxy and relay that parses, each once, in map order. |
| `Restart.PersistPlugin.Restore` | plugins/persist/persist.go:75-93 | With the restoring flag set, those events are published; then the snapshot is restored into the store if there is one, and the flag is cleared. |
| `Restart.MetaRestorePublishes` | plugins/persist/persist.go:192-250 | Only events for stored resources enter the queues. |
| `Restart.ProxiesPublished` | plugins/persist/persist.go:192-225 | For every live proxy restoring publishes exactly one event, and that one creates it as it is. |
| `Restart.RelaysPublished` | plugins/persist/persist.go:226-250 | The same for every live relay, with or without a token. |
| `Restart.StoredArePublished` | plugins/persist/persist.go:192-250 | With room in both queues, exactly one event is accepted for each proxy and each relay that the stored resources mean. |
| `Restart.ReloadReplay` | common/store/event.go:127-157 | A reloaded log replays to the reloaded resources and to the same proxies and relays. |
| `Restart.ReloadStored` | common/store/meta.go:151-179 | Reloaded resources still are an exact image of what the log means. |
| `Restart.PublishedIsLive` | plugins/persist/persist.go:192-250 | Every published event carries a resource the log leads to, under its own name. |
| `Restart.SnapshotGives` | common/store/manager.go:159-196 | A snapshot section written, read back and decoded gives exactly the live map. |
| `Restart.RestoreMerges` | BBgrid_Server/runtime/statestore.go:454-554 | Restore files every entry of the snapshot over what is there, in all four maps, in any order of its entries. |
| `Restart.RebuiltIff` | plugins/persist/persist.go:75-93 | The map that start-up builds up is the one the log leads to exactly when every key is recovered: not brought back by the snapshot after its deletion, and handled after Restore, or in the snapshot as in the log, or not in the snapshot and handled at all. |
| `Restart.BootStepKeeps` | plugins/persist/persist.go:75-93 | Every start-up step (applying, writing through or skipping a published event, Restore) keeps disk and log meaning the same maps, and the four live maps are what the steps so far build up. |
| `Restart.BootKeeps` | plugins/persist/persist.go:75-93 | At every moment of start-up, from any snapshot or none, disk and log mean the same maps and the live maps are what the steps so far build up. |
| `Restart.BootRestoresIff` | plugins/persist/persist.go:75-93 | Started up from a snapshot of any other moment, the four maps are those of the log exactly when every key is recovered; disk and log keep their meaning in any case. |
| `Restart.BootRestores` | plugins/persist/persist.go:75-93 | From a snapshot of everything, for every interleaving of both workers' steps with Restore and whatever a full queue dropped, start-up rebuilds exactly the desired and actual maps the log replays to, with disk and log still agreeing. |
| `Restart.FirstRestoreCompletes` | plugins/persist/persist.go:75-93 | Without any snapshot the four maps are those of the log as soon as every published event has been handled. |
| `Restart.CleanRestart` | common/store/manager.go:199-222 | From Close through the snapshot directory to running again: the snapshot found is the one Close saved, and start-up from it rebuilds exactly the maps of before. |
| `Restart.LifeAgrees` | BBgrid_Server/runtime/core.go:66-103 | Over every life, with applying and writing through of all types interleaved and any number of clean restarts, stored resources and log agree, each live map agrees with them whenever its worker is idle, and a restart changes no desired or actual map. |
| `Restart.CrashRestartIff` | plugins/persist/persist.go:75-93 | After a crash at any moment of any life, start-up from a snapshot of any earlier moment or from none rebuilds exactly the maps of the log if and only if every key is recovered. |
| `Backoff.DelayWrapsOnce` | BBgrid_Server/runtime/reconcile.go:206-213 | The int64 product of the delay wraps as if computed once. |
| `Backoff.DelayExact` | BBgrid_Server/runtime/reconcile.go:206-213 | For 1 to 29 failures the delay is min(30 s * 2^(n-1), 600 s) without wrap-around. |
| `Backoff.DelayMonotone` | BBgrid_Server/runtime/reconcile.go:206-213 | Up to 29 failures more failures never shorten the delay, and it lies within 30 s and 600 s. |
| `Backoff.DelayVanishes` | BBgrid_Server/runtime/reconcile.go:206-213 | From 55 failures on the delay is zero. |
| `Backoff.DelayRightIff` | BBgrid_Server/runtime/reconcile.go:206-213 | The delay is the intended one exactly up to 29 failures and at ten listed counts; otherwise it is not positive, so the entry is retried at once. |
| `Reconcile.KeyedReconciler.Reconcile` | BBgrid_Server/runtime/reconcile.go:173-260 | The creating and deleting loops with their counters and failure maps amount to the pass function. |
| `Reconcile.PassAccounts` | BBgrid_Server/runtime/reconcile.go:189-257 | The provider calls are, each once, the key difference minus missing entries in backoff; total = fixed + failed + skipped; failures are recorded and cleared per key. |
| `Reconcile.RetriedIff` | BBgrid_Server/runtime/reconcile.go:190-215 | A missing entry that never failed is tried in every pass; after n failures it is tried exactly in those passes that run the delay after the last one or later, min(30 s * 2^(n-1), 600 s) for n up to 29. |
| `Reconcile.OutcomeRecorded` | BBgrid_Server/runtime/reconcile.go:190-235 | After a pass an entry that is there or was created has no failure on record, one that was tried in vain has one more and the time of the pass, and one that was not tried has what it had. |
| `Reconcile.CallsInOrder` | BBgrid_Server/runtime/reconcile.go:189-260 | All creations come before all removals, each in the order in which the entries were listed. |
| `Reconcile.ReconcileEngine.ReconcileProxies` | BBgrid_Server/runtime/reconcile.go:173-260 | A pass over the store's desired and actual proxies in some map order. |
| `Reconcile.ReconcileEngine.ReconcileRelays` | BBgrid_Server/runtime/reconcile.go:263-348 | A pass over the store's desired and actual relays in some map order. |
| `Reconcile.ReconcileEngine.DoReconcile` | BBgrid_Server/runtime/reconcile.go:133-170 | Both passes happen and their result is the last one and joins the bounded history. |
| `Reconcile.HistoryKeepsLast` | BBgrid_Server/runtime/reconcile.go:157-160 | The history is the last hundred results, or all of them, in order. |
| `Converge.RepairsCanonical` | BBgrid_Server/runtime/provider.go:22-79 | The four repair operations publish canonical events, so write-through agreement extends to them. |
| `Converge.RelayRepairFaithfulIff` | BBgrid_Server/runtime/reconcile.go:303-312 | A repaired relay is desired as before exactly when it had no token. |
| `Converge.RepairCloses` | BBgrid_Server/runtime/provider.go:22-79 | Applying a repair, however late and however often, closes its key's gap if it is still open, opens none and leaves what is desired alone. |
| `Converge.ProxyPassToDo` | BBgrid_Server/runtime/reconcile.go:173-260 | A pass without failures on record publishes one repair for every proxy key in the gap and leaves no failure on record. |
| `Converge.RelayPassToDo` | BBgrid_Server/runtime/reconcile.go:263-348 | The same for relays. |
| `Converge.GapNeverGrows` | BBgrid_Server/runtime/reconcile.go:75-104 | In every run of the loop, passes beginning while older repairs are still queued, neither the gap nor the part of it without a queued repair ever grows, and what is desired stays. |
| `Converge.LoopBacklog` | BBgrid_Server/runtime/eventbus.go:64-96 | By its keys the loop of passes, lossy queue and worker is a small machine: a pass takes up the gap, a publish queues a key or loses it, handling closes one. |
| `Converge.PassGains` | BBgrid_Server/runtime/reconcile.go:133-170 | Every pass, also one that begins on a queue with stale repairs, closes by the next idle moment as many more gaps as the queue had room for, or all. |
| `Converge.Converges` | BBgrid_Server/runtime/reconcile.go:75-104 | In every run of the loop, after ceil(m/256) passes that began on an empty queue, with any number of others in between, actual keys equal valid desired keys at the next idle moment, and the desired entries are as before up to relay tokens. |
| `Converge.StaysQuiet` | BBgrid_Server/runtime/reconcile.go:75-104 | Once keys agree and the loop is idle it stays so: passes publish nothing and no event of the type is handled, so none triggers another pass. |
| `Converge.LockstepGap` | BBgrid_Server/runtime/reconcile.go:173-348 | With desired and actual maps in lockstep a pass touches only proxies without client or port and the relay without ID. |
| `Pairing.RunKeeps` | BBgrid_Server/session/server.go:808-874 | Over every interleaving the right to send on a channel exists once at most and every connection is in one place. |
| `Pairing.PairingSafe` | BBgrid_Server/session/server.go:808-1017 | In every reachable state nobody entitled to send can block, a channel gets one value at most, and no connection goes to two waiters. |
| `Pairing.ContentsOnlyGrow` | BBgrid_Server/session/server.go:808-874 | What was sent on a channel stays its history, and a waiter that stopped receives nothing more. |
| `Pairing.OrphanForever` | BBgrid_Server/session/server.go:808-823 | A waiter whose entry was removed or overwritten, or whose peer failed the ACK, never receives anything. |
| `Pairing.OrphanedIff` | BBgrid_Server/session/server.go:808-844 | Over every run a channel is without a sender exactly when some step removed or overwrote its entry, or the ACK to its peer failed. |
| `Pairing.RelayDeleteOrphansIff` | BBgrid_Server/session/server.go:1005-1009 | The delete of a relay end that has timed out takes another waiter's sender away exactly when the entry under its session is not its own. |
| `Pairing.RelayDeleteHitsOther` | BBgrid_Server/session/server.go:989-1014 | A run in which it does: timer, take, registration of a third end, and the first end's delete. |
| `Pairing.StrandedIff` | BBgrid_Server/session/server.go:787-844 | Over every run an accepted connection ends up in a channel nobody reads exactly when it was sent to a waiter that had given up, or its waiter gave up before receiving it. |
| `Pairing.StrandedBothWays` | BBgrid_Server/session/server.go:787-844 | Runs for both ways. |
| `Pairing.StrandedForever` | BBgrid_Server/session/server.go:826-844 | Such a connection stays there for good. |
| `Pairing.Rendezvous.RegisterPending` | BBgrid_Server/session/server.go:808-817 | A fresh empty channel is filed under the token, replacing any older entry. |
| `Pairing.Rendezvous.AcceptTunnel` | BBgrid_Server/session/server.go:826-844 | The entry is taken; the connection goes to its channel if the ACK went through, and is closed otherwise. |
| `Pairing.Rendezvous.HandOver` | BBgrid_Server/session/server.go:834-841 | The part of AcceptTunnel after the lock: one send into an empty channel, or none. |
| `Pairing.Rendezvous.CleanupExpired` | BBgrid_Server/session/server.go:862-874 | Each entry older than 60 seconds goes and its waiter gets nil; every other entry and its channel stay as they were, and so do all channels that no entry names. |
| `Pairing.CleanupOutcome` | BBgrid_Server/session/server.go:862-874 | The same of cleaning up as one step of a run. |
| `Pairing.Rendezvous.ArriveAtRelay` | BBgrid_Server/session/server.go:989-1014 | The first end registers, the second takes the first one's channel. |
| `Pairing.OneLoopPerProxy` | BBgrid_Server/session/server.go:720-748 | No proxy ever has two accept loops, counting one about to start. |
| `Pairing.StepBlocksIff` | BBgrid_Server/session/server.go:728-739 | A proxy key is blocked for good, with no loop to release it, exactly when a start failed after claiming it. |
| `Pairing.TunnelLoops.StartTunnelLoop` | BBgrid_Server/session/server.go:720-748 | A loop starts exactly when the key is free and provider and listener are found; a failed start keeps the claim. |

## Left out

- JSON text and floating point: values are trees, and integers are those a float64 holds exactly (up to 2^53).
- The file system: each save succeeds as a whole or leaves the old content; temporary files, sync and rename are not modelled.
- The splice and sendfile paths of the multiplexer, `HandleChannel`, TCP options and `Close` of the whole connection beyond its effect on the operations above.
- WebSocket, HTTP, gRPC, KCP and TLS plumbing, the CLI, logging, configuration and the legacy `workers` package.
- Authentication, certificates, vouchers and namespaces; `GenerateID` is an arbitrary value.
- `EventStore.Query` and `EventFilter`, `StateStoreImpl.Snapshot`, client listings and statistics: they only read, and nothing that decides a state depends on them.
- `AppendEvent` without a resource: the program logs through `AppendEventAndSave` and `DeleteResource`.
- `restoreAll` and the flushing of plugin state to `persist.json`.
- Event subscribers other than the handlers of `Core`.
- Termination of Go's wait loops: liveness is stated as enabled steps and decreasing measures, not as fairness of the scheduler.
- Credit.CreditConserved: one direction of one open channel, with at most 2047 senders so that int32 bounds hold; closing the channel is not a step of this machine, because closing discards queued data. A window update counts as written or lost as a whole; torn ones are treated in module Wire.
- Credit.WindowBounds: a Send of 2^31 bytes or more, whose int32 length is negative, is not a step of this machine; what such a Send does to the window is Credit.OneSendOverdrawsIff, and the debit itself is in Mux.Multiplexer.Send.
- Credit.NeverOverdrawnIffOneSender: for Sends below 2^31 bytes, as above.
- Delivery.InOrderIffOneWorker: one direction of one open channel, as above.
- Mux.Multiplexer.Send: describes one attempt; waiting for the window or the queue is an outcome, and the caller's loop repeats it (the loop itself is the step machine of module Credit).
- Mux.Multiplexer.OpenChannel: the OPEN frame is put into an unbounded control queue at once; the goroutine that does so and the bound of 32 are not modelled.
- EventBus.BusDelivery: Publish is one step, as are a worker's calls of all handlers for one event; runs with Publish split are treated by module SplitPublish.
- Storage.StorageManager.AppendEventAndSave: the log is its list of events; files of one log and their bytes are treated in module EventLog.
- EventLog.LoadEvents: one log file; the decoder of a line is a parameter that inverts the encoder.
- Snapshots.Retention: for clocks that strictly increase without gaining a digit; every other clock is treated by Snapshots.RetentionByName and Snapshots.RetentionIff.
- Core.WorkStepKeeps: for events as the program's publishers make them, in the default namespace and named after the resource they carry, with every write to disk succeeding; writing through is one step, as the storage is locked throughout.
- Core.HandlesKeepsAgreement: for the same events, with nobody in between.
- Restart.CleanRestart: with the clock ahead of the snapshots on disk, as Snapshots.SteadyIsAhead gives; exactly when the saved snapshot is found otherwise is Snapshots.ReopenFindsSavedIff.
- Restart.CrashRestartIff: for the first crash of a life, which happens between two operations of the locked storage; a log torn in the middle of a record is treated by EventLog.CutFile.
- Restart.BootRestores: for a log of such events whose proxies have a client and a port and whose relays have an ID; nothing but the published events is handled during start-up.
- Reconcile.PassAccounts: for desired entries with distinct keys, which canonical tables have; one clock value serves a whole pass.
- Converge.Converges: a pass sees the store at one moment, without failures on record, and the bus stays open; other publishers of the type are silent; for relays the statement is about session IDs, since their tokens are lost.
- Pairing.PairingSafe: a connection is an arrival; cleaning up is one step, although a waiter may receive its nil before the lock is released.
