# A verified model of a Centrifugo server

Centrifugo is a real-time messaging server: clients connect, subscribe to channels,
and receive what is published there. This project models the server's core in
Dafny and proves what its design promises. It follows the code of
`crates/centrifugo-core`, `centrifugo-redis`, `centrifugo-protocol` and
`centrifugo-server`, in these parts:

- **Streams and recovery** (`SeqGen`, `Stream`, `Memory`, `RedisHistory`,
  `RecoveryProtocol`, `Simulation`). A channel's history is one abstract stream: a log of everything
  ever appended in an epoch, of which a front part has been dropped. The in-memory ring
  and the two Redis scripts both refine it. `RecoveryProtocol` is a state machine in
  which any number of publications interleave with one connection's subscribe, one
  lock-protected section at a time; no message is lost in any run. `Simulation` drives the
  memory engine and the node themselves through such runs, so this holds of them.
- **Connections** (`Hub`, `Node`, `Session`, `Commands`, `Effects`, `Client`, `Socket`). The hub's
  shards and indexes refine one flat relation. `Client` is the session state machine; what
  it keeps is stated on values in `Session`: agreement with hub and presence, the ledger
  of Joins and Leaves, and the order of its own queue. What each command, signal and timer
  does is stated in `Effects`, as relations between the connection and server before and
  after. `Socket.HandleSocket` runs the reader loop over any list of turns, with other
  connections, slow-consumer drops, control signals and the writer acting in between, and
  proves what every turn did and what holds at the end.
- **The way out** (`Uvarint`, `Framing`, `Writer`): varints, message framing, and the
  writer that merges queued frames.
- **Redis formats and control** (`PushFormat`, `RedisPresence`, `Control`).
- **The origin check** (`OriginGlob`).

`dafny verify dfyconfig.toml` checks everything.

## How the model is built

- One member of the model stands for one method of the program; where the program
  updates fields or loops, so does the model, and its contract ties the new state to the
  old one. A decision that is a function in the program is one in the model too; a lemma
  named `...Exactly` beside it says what it decides without calling it. Several methods hide definitions they do not need, with
  Dafny's `hide` statement; this only takes facts away from the verifier.
- A command handler and a timer of one connection each run as one step. What other
  tasks do comes between the steps: before each command of a batch, before its replies
  are queued, before each deferred Join, before the close, and between the channels of
  an unsubscribe-all or a disconnect. Inside a handler only subscribing against
  publishing is interleaved: that is `RecoveryProtocol`.
- Each subscription a connection makes has a number, as bookkeeping that only proofs can
  see; its Join and the reply that announces it carry the number.
- The clock is a parameter `now`, the same during one call, in seconds for the memory
  engine and in milliseconds for Redis, whose clock the nodes share and which never
  runs backwards. Random client ids and epochs are parameters. That an epoch was never
  used before is an assumption of `RecoveryProtocol`; for Redis it is proved
  (`EpochsNeverRepeat`). That a new client id is unknown to the hub and to presence is
  a precondition of CONNECT.
- Tokens and proxies are outcome values handed to the handlers; any outcome is allowed.
  Channel options are any function of the channel name. Message bodies are byte strings
  with an encoder and a decoder; channel names count one character a byte.
- Offsets are unbounded in the streams; statements about the wire say where they need
  `u64`. The increment of the requested offset wraps, as in a release build; at the
  largest offset nothing can follow, so the wrap changes no answer.
- Where the memory engine serves several channels, its expiry is the lazy one of the
  code: a stream changes only when it is accessed.
- History is enabled on recoverable channels, as `crates/centrifugo-server/src/config.rs:575-582`
  enforces; no proof needs it, since a channel without history has an empty stream.

## Where the code and its documentation differ

- The origin matcher compares literally before it looks at `*`
  (`crates/centrifugo-server/src/origin.rs:72`), so a `*` in the text is consumed as a
  literal. It never accepts too much. A text is decided as documented by all patterns
  exactly when it has no `*` (`AgreesExactlyWithoutStar`), and so is a pattern on all
  texts (`DecidedAsDocumentedWithoutStar`); the pattern `*` refuses `*a`
  (`StarRefusesExactly`).
- With Redis, history after a given offset is a contiguous run ending at the reported top
  exactly when the meta TTL is 0 or at least the history lifetime (`ContiguousExactly`);
  otherwise an old list can survive a restarted position.
- Presence in Redis is kept in whole seconds, so a refresh interval is safe exactly when it
  is a second below the TTL (`RefreshGapExactly`). The defaults (25 s and 60 s) are.
- Packing a position multiplies by 2^32 - 1 where unpacking divides by 2^32. Echoing a
  position therefore asks for the same or an earlier one, equal exactly below 2^32.
- A CONNECT whose credentials repeat an announcing channel publishes one Join for each
  mention and one Leave in all (`RepeatsNone` says exactly when the surplus is empty).
- With the memory engine, live publications of concurrent publishers may arrive out of
  order: order is kept in all runs of at most k in flight exactly when k is at most 1
  (`LiveOrderExactly`). With Redis it is kept for any number (`LiveOrderInTurn`).
- An info that is present but empty comes back absent from Redis, so the two engines show
  the same publications exactly when there is none (`EnginesAgreeOverProtobuf`); positions
  and recoveries agree in any case.

## Model

| member | source | states |
|---|---|---|
| RecoveryProtocol.NoLossWhenRecovered | crates/centrifugo-core/src/client.rs:551-592 | in every interleaving of publishers with one (re)subscribe, once nothing is in flight, a still registered connection that was told it recovered has got every publication after the requested offset, in the answer or live |
| RecoveryProtocol.NothingMissedPastTheTop | crates/centrifugo-core/src/client.rs:394-419 | past the position a subscribe reported, everything later is offered live, in this epoch and in later ones |
| RecoveryProtocol.NoLossAfterResuming | crates/centrifugo-core/src/client.rs:579-592 | a client that echoes a position it was given, in either wire mode, and is told it recovered misses nothing after it |
| RecoveryProtocol.AtMostOnce | crates/centrifugo-core/src/node.rs:761-771 | no publication is offered twice to a connection, and a recovered list has no offset twice |
| RecoveryProtocol.RunKeepsInv | crates/centrifugo-core/src/memory.rs:136-162 | every run of appends, snapshots, offers, expiries and subscribes keeps the log, the in-flight, the live and the read invariant |
| RecoveryProtocol.LiveOrder | crates/centrifugo-core/src/memory.rs:143-160 | with one publisher at a time, live order is publishing order |
| RecoveryProtocol.LiveOrderExactly | crates/centrifugo-core/src/memory.rs:143-160 | live order holds in all runs of at most k publications in flight iff k is at most 1; the witness for two is a run of the memory engine |
| RecoveryProtocol.LiveOrderInTurn | crates/centrifugo-redis/src/lib.rs:398-403 | with Redis, where the append publishes and one task routes in turn, live order holds for any number of publishers |
| Simulation.ChannelRun.DoAll | crates/centrifugo-core/src/memory.rs:78-228 | the memory engine and the node, run one section at a time in any order, are a run of the recovery protocol: same stream, registration, flights, answers and queue; and each section did what its name says |
| Simulation.ChannelRun.NothingLost | crates/centrifugo-core/src/client.rs:551-592 | on those classes: with nothing in flight, a registered connection that was told it recovered has everything after its offset in its answer or pushed to its queue |
| StreamModel.RecoveryIsExact | crates/centrifugo-core/src/client.rs:584-592 | `recovered` holds iff the epoch is the stream's, the offset is not past the top, and nothing after it was dropped; the answer is then everything after it |
| StreamModel.AppendExactly | crates/centrifugo-core/src/memory.rs:92-109 | an append moves the position by one and keeps the newest publications up to the size, in order, the new one last |
| StreamModel.RecoverResult | crates/centrifugo-core/src/client.rs:588-606 | the reply says what the engine answered: same publications once put back in order, position of the top, and no offsets in seq/gen mode |
| StreamModel.ConvertToSeqGen | crates/centrifugo-core/src/client.rs:595-605 | newest first with (seq, gen) and no offset, and undone by reversing and recombining |
| StreamModel.ResumingMissesNothing | crates/centrifugo-core/src/client.rs:579-606 | recovering from an echoed position returns at least what was missed, and exactly that below 2^32 |
| SeqGen.EchoNeverSkips | crates/centrifugo-core/src/client.rs:1134-1154 | an echoed position asks for v - v/2^32, never more than v, and v itself iff v is below 2^32 or offsets are used |
| SeqGen.SeqIsLow | crates/centrifugo-core/src/client.rs:1141-1143 | an offset is gen times 2^32 plus seq; below 2^32 gen is 0 |
| Memory.AppendToRing | crates/centrifugo-core/src/memory.rs:92-109 | appending and trimming a ring is appending to the stream it shows |
| Memory.TrimmedRetained | crates/centrifugo-core/src/memory.rs:103-106 | dropping from the front leaves exactly the newest retained publications |
| Memory.MemoryEngine.EvictIfExpired | crates/centrifugo-core/src/memory.rs:118-131 | by fields: past the meta expiry the channel is forgotten; until then offset and epoch stay, and past the lifetime the publications go and nothing else; other channels are untouched |
| Memory.LiveExactly | crates/centrifugo-core/src/memory.rs:118-131 | the stream the next access sees: gone iff its meta expired; else same epoch, log and position, with the publications dropped iff their lifetime is over |
| Memory.RecoveryAfterLifetime | crates/centrifugo-core/src/memory.rs:203-223 | after the publications expired and before the meta did, a client recovers iff it had everything |
| Memory.MemoryEngine.AddToHistory | crates/centrifugo-core/src/memory.rs:78-110 | the live (or a new) stream grows by the entry and is trimmed; the offset is the new top; both expiries restart |
| Memory.MemoryEngine.Publish | crates/centrifugo-core/src/memory.rs:136-162 | the routed publication is the newest retained one, or has offset 0 and leaves history alone |
| Memory.MemoryEngine.History | crates/centrifugo-core/src/memory.rs:196-201 | all retained publications and the position of the live stream; a read prolongs no expiry |
| Memory.MemoryEngine.HistorySince | crates/centrifugo-core/src/memory.rs:203-223 | exactly what is retained after the offset, and the position |
| Memory.MemoryEngine.RemoveHistory | crates/centrifugo-core/src/memory.rs:225-228 | the channel's stream is forgotten, others stay |
| Memory.SinceIsFilter | crates/centrifugo-core/src/memory.rs:215-220 | filtering a ring by offset yields the stream's suffix after the offset |
| Memory.MemoryEngine.AddPresence | crates/centrifugo-core/src/memory.rs:230-245 | the client is present with this info; all other entries stay |
| Memory.MemoryEngine.RemovePresence | crates/centrifugo-core/src/memory.rs:247-256 | the client is absent from the channel, no empty channel is kept, other entries stay |
| Memory.MemoryEngine.PresenceStats | crates/centrifugo-core/src/memory.rs:267-276 | numbers of entries and of distinct users |
| RedisHistory.RedisChannel.AddHistory | crates/centrifugo-redis/src/lib.rs:116-138 | the append script, with expired keys gone first; what is published is the newest list element |
| RedisHistory.RedisChannel.ReadHistory | crates/centrifugo-redis/src/lib.rs:600-638 | the read script, and its answer decoded and sorted by offset |
| RedisHistory.RedisChannel.HistorySince | crates/centrifugo-redis/src/lib.rs:714-726 | the publications of a read with a larger offset, none if the position is the top |
| RedisHistory.AddRefines | crates/centrifugo-redis/src/lib.rs:116-138 | the append script is the abstract append, when the meta hash outlives the list |
| RedisHistory.ListLastsItsLifetime | crates/centrifugo-redis/src/lib.rs:126-161 | what an append leaves in the list is there for every later read up to the lifetime and for none after; reads do not prolong it, whatever the meta TTL |
| RedisHistory.PositionLastsWhileRead | crates/centrifugo-redis/src/lib.rs:127-155 | every script restarts the meta TTL: after any reads the position of an append is still told iff no two consecutive scripts were further apart than the TTL |
| RedisHistory.PositionLastsForEver | crates/centrifugo-redis/src/lib.rs:127-155 | with meta TTL 0 it is told after any reads at any time |
| RedisHistory.ReadIsExact | crates/centrifugo-redis/src/lib.rs:612-637 | list and meta, decoded and sorted, give exactly the retained publications as the codec reads them, and the position; any codec that can be read |
| RedisHistory.EnginesAgree | crates/centrifugo-redis/src/lib.rs:714-726 | ring and Redis keys that show one stream tell the same position and recover in the same cases; their publications are equal iff the retained entries are read back as written |
| RedisHistory.EnginesAgreeOverProtobuf | crates/centrifugo-redis/src/lib.rs:51-82 | with the engine's own info conversion that is iff no retained publication has an info that is present but empty |
| RedisHistory.ReadBackExactly | crates/centrifugo-redis/src/lib.rs:51-82 | an entry survives writing and reading iff it has no empty info |
| RedisHistory.RunRepresents | crates/centrifugo-redis/src/lib.rs:600-732 | after every run of appends, reads and removals the keys show some stream |
| RedisHistory.ContiguousExactly | crates/centrifugo-redis/src/lib.rs:116-161 | in all runs a reader sees consecutive offsets ending at the top iff the meta TTL is 0 or at least the lifetime |
| RedisHistory.StaleListAfterMetaExpiry | crates/centrifugo-redis/src/lib.rs:127-133 | otherwise one append and a read after the meta expiry show offset 1 above a top of 0 |
| RedisHistory.EpochsNeverRepeat | crates/centrifugo-redis/src/lib.rs:118-129 | the epochs issued in a run strictly increase and are different strings, for every meta TTL |
| PushFormat.ExtractInvertsProducers | crates/centrifugo-redis/src/lib.rs:87-106 | offset, join and leave frames with any body parse back to the same kind, offset and body |
| PushFormat.RawReadAsItself | crates/centrifugo-redis/src/lib.rs:87-106 | an unframed buffer is read as itself iff it has no leading `__` with a second `__` after it |
| RedisPresence.RedisPresence.Add | crates/centrifugo-redis/src/lib.rs:165-170 | the client's last add is now; set and hash keep the same clients, and expiring a whole key loses no current entry |
| RedisPresence.RedisPresence.Remove | crates/centrifugo-redis/src/lib.rs:174-177 | the client's add is forgotten, others stay |
| RedisPresence.RedisPresence.Read | crates/centrifugo-redis/src/lib.rs:181-190 | exactly the clients whose last add is not expired and was not followed by a remove, with their info |
| RedisPresence.RefreshGapExactly | crates/centrifugo-redis/src/lib.rs:734-757 | an entry outlives every gap of this length iff the gap is at least a second below the TTL |
| RedisPresence.NeverAbsent | crates/centrifugo-core/src/client.rs:818-830 | a client that re-adds itself at such intervals is never absent from its first add to one gap after its last |
| HubModel.Hub.Add | crates/centrifugo-core/src/hub.rs:89-94 | the table gains the handle; the user index stays its inverse iff the id is new or keeps its user |
| HubModel.Hub.Remove | crates/centrifugo-core/src/hub.rs:100-120 | the client leaves the table, the user index and every channel, no empty set is kept, and the result says whether it was there |
| HubModel.Hub.Subscribe | crates/centrifugo-core/src/hub.rs:136-142 | the flat relation gains one pair, in the channel's shard |
| HubModel.Hub.Unsubscribe | crates/centrifugo-core/src/hub.rs:144-152 | the flat relation loses one pair; an emptied channel goes |
| HubModel.Hub.Subscribers | crates/centrifugo-core/src/hub.rs:156-163 | the registered clients related to the channel, each once |
| HubModel.Hub.UserClients | crates/centrifugo-core/src/hub.rs:127-134 | the user's connections, each once |
| HubModel.Hub.NumChannels | crates/centrifugo-core/src/hub.rs:182-184 | the shard sizes add up to the number of distinct channels |
| HubModel.Hub.Channels | crates/centrifugo-core/src/hub.rs:174-180 | every channel with a subscriber, each once |
| HubModel.FlatRemove | crates/centrifugo-core/src/hub.rs:112-118 | one pass over the shards takes the client out of the whole relation |
| HubModel.InverseAdd | crates/centrifugo-core/src/hub.rs:89-94 | re-registering an id under another user is exactly what breaks the user index |
| NodeModel.Node.DeliverPush | crates/centrifugo-core/src/node.rs:761-790 | the push, in its own protocol, to each subscriber with room, nothing to any other queue; exactly the full or closed subscribers leave the hub, and each is scheduled one close; over all runs no queue is scheduled twice |
| NodeModel.Node.DropSlow | crates/centrifugo-core/src/node.rs:773-787 | out of the hub, and one close if it was still there |
| NodeModel.OfferedExactly | crates/centrifugo-core/src/node.rs:765-771 | the broadcast loop offers each listed queue its frame once and changes no other |
| NodeModel.Node.RoutePublication | crates/centrifugo-core/src/node.rs:729-746 | a publication reaches all subscribers in the node's wire mode |
| NodeModel.ResumingFromLive | crates/centrifugo-core/src/node.rs:739-744 | a client that resumes from the position of a live push, in either wire mode, and recovers misses nothing after it |
| NodeModel.Node.ApplyControl | crates/centrifugo-core/src/node.rs:668-713 | the signal goes to exactly the user's connections that accept control and are not whitelisted, unless their control queue is full or its reader gone; a ping only enters the registry |
| NodeModel.Node.UnsubscribeUser | crates/centrifugo-core/src/node.rs:631-644 | the issuing node signals its own connections of the user, and the command for the bus is the one that makes the others do so |
| NodeModel.Node.DisconnectUserNow | crates/centrifugo-core/src/node.rs:647-663 | likewise for a disconnect: without reconnect and sparing no connection |
| NodeModel.SignalledExactly | crates/centrifugo-core/src/node.rs:672-711 | the loop signals each addressed connection once and no other |
| NodeModel.Node.Send | crates/centrifugo-server/src/ws.rs:232-242 | a connection's own item is queued after waiting for room, and is refused only if the writer is gone |
| Control.ExactlyOnce | crates/centrifugo-core/src/node.rs:631-663 | in any run of nodes with distinct uids each command is applied at most once by every node, and exactly once when nothing is under way |
| Control.AppliedAsIssued | crates/centrifugo-core/src/node.rs:631-663 | when nothing is under way every node, the issuer included, has applied each unsubscribe and disconnect as often as it was issued anywhere, and each ping as often as other nodes issued it |
| Control.ExactlyOnceNeedsDistinctUids | crates/centrifugo-redis/src/lib.rs:299-304 | that holds for all runs iff the uids are distinct |
| Commands.UserLimited | crates/centrifugo-core/src/client.rs:1091-1096 | `name#u1,u2` admits exactly the users it names |
| Commands.UserAllowedExactly | crates/centrifugo-core/src/client.rs:1091-1096 | for every channel: all users where there is no `#`, exactly the listed ones where there is |
| Commands.AdmitExactly | crates/centrifugo-core/src/client.rs:435-550 | a SUBSCRIBE is let in iff it is in order, the channel is known and open to the user, and token or proxy agree where they are asked; with the state that options, token and proxy give; else refused with the code of the first thing wrong |
| Commands.MayPublishExactly | crates/centrifugo-core/src/client.rs:666-724 | a PUBLISH goes through iff it is in order, the channel allows it and the proxy agrees, with the data the proxy may have rewritten; else each refusal has its code |
| Commands.HistoryRefusedExactly | crates/centrifugo-core/src/client.rs:630-646 | HISTORY is for subscribers of a known channel that keeps history and does not hide it; else each refusal has its code |
| Commands.ResolveExactly | crates/centrifugo-core/src/client.rs:250-319 | whom a CONNECT is taken for, by token, proxy or neither, and how it is refused otherwise |
| Commands.ConnectChannelsExactly | crates/centrifugo-core/src/client.rs:321-326 | the credentials' channels in order, then the personal one if it is not among them |
| Commands.RepeatsNone | crates/centrifugo-core/src/client.rs:356-361 | a CONNECT owes no surplus Join iff no announcing channel is repeated |
| ClientModel.Client.OnSubscribe | crates/centrifugo-core/src/client.rs:428-623 | whoever is not entitled is refused and nothing changes anywhere; whoever is enters hub and presence with the channel's options, owes one Join if it announces, and is told exactly what the stream still has after the requested offset |
| Commands.AnswersRecovered | crates/centrifugo-core/src/client.rs:577-606 | what a recovering SUBSCRIBE is told, relative to the stream's log |
| ClientModel.Client.ServerSideSubscribe | crates/centrifugo-core/src/client.rs:387-426 | one server-side subscription: hub, presence with its info, position, and a Join put off (a surplus one if already subscribed) |
| ClientModel.Client.OnConnect | crates/centrifugo-core/src/client.rs:227-382 | a refusal changes nothing but the id; over the connection limit it closes unregistered; else it is registered, subscribed to the credentials' channels one after the other, and its reply maps each of them to where its stream stands |
| ClientModel.Client.DropSubscription | crates/centrifugo-core/src/client.rs:748-765 | presence off, the Leave delivered while still in the hub, then out; ledger, coherence and queue order kept |
| ClientModel.Client.OnUnsubscribe | crates/centrifugo-core/src/client.rs:733-746 | out of the channel with one Leave if it announced; the empty channel closes and changes nothing |
| ClientModel.Client.ServerUnsubscribe | crates/centrifugo-core/src/client.rs:146-157 | out of the channel, and the last thing queued says so; nothing if not subscribed |
| ClientModel.Client.PublishNextJoin | crates/centrifugo-core/src/client.rs:121-125 | a deferred Join is offered to its channel's subscribers once, after the frame that reported its very subscription, and settled in the ledger |
| ClientModel.Client.FlushPendingJoins | crates/centrifugo-core/src/client.rs:121-125 | all deferred Joins are published in order, whatever happens between them, and none is left |
| ClientModel.Client.OnPublish | crates/centrifugo-core/src/client.rs:659-731 | a refusal changes nothing; else the stream grows by the entry and the publication, with its offset, is offered to every subscriber |
| ClientModel.Client.OnHistory | crates/centrifugo-core/src/client.rs:625-657 | a refusal changes nothing; else all retained publications, oldest first and with their offsets, of a stream that the read may expire or create |
| ClientModel.Client.ServerTurn | crates/centrifugo-core/src/node.rs:761-790 | whatever other tasks do has the effect it should; a connection at most falls out of the hub, its presence stays, and its queue only grows in order |
| ClientModel.Client.CheckExpired | crates/centrifugo-core/src/client.rs:838-853 | closes iff the connection or some subscription is more than 25 s past its expiry, the connection first |
| ClientModel.Client.OnRefresh | crates/centrifugo-core/src/client.rs:871-929 | each outcome of the token has its reply, and a verified one is taken over even if it is past; hub and server are unaffected even if the user changes |
| ClientModel.Client.OnSubRefresh | crates/centrifugo-core/src/client.rs:1020-1085 | for a channel subscribed by command, a matching token that is not past always succeeds and sets expiry and info; an expired one clears the expiry; else the reply says what was wrong and nothing changes |
| ClientModel.Client.ProactiveRefresh | crates/centrifugo-core/src/client.rs:937-973 | when due, the connection is renewed as the proxy says or closed with the reason; one not closed is not past its expiry; nothing changes when not due |
| ClientModel.Client.RefreshPresence | crates/centrifugo-core/src/client.rs:818-830 | every entry of the client where presence is on shows its current info, and no other entry changes |
| ClientModel.Client.OnDisconnect | crates/centrifugo-core/src/client.rs:857-869 | one Leave and presence off for every subscription, once each and whatever happens between, then out of the hub; from any valid state, slow drop included, no trace is left, and Joins published and pending equal Leaves plus surplus |
| ClientModel.Client.HandleCommand | crates/centrifugo-core/src/client.rs:194-225 | every command does what its kind says, in reply, connection and server: a permitted PUBLISH is appended and offered, HISTORY shows what is retained, REFRESH and SUB_REFRESH set the expiry, and so on; coherence, ledger and order are kept, and the client is left in exactly the right channels |
| Session.OrderOther | crates/centrifugo-server/src/ws.rs:228-242 | frames that are no self-Join keep the queue's order, and a reply frame settles the subscriptions it reports |
| Session.OrderJoin | crates/centrifugo-core/src/client.rs:121-125 | a Join of the client itself may be queued, or lost, once the reply that announced its subscription is in the queue |
| Session.OrderSubscribe | crates/centrifugo-core/src/client.rs:616-622 | a new subscription gets a number of its own, to be reported once and joined at most once |
| SocketModel.HandleSteps | crates/centrifugo-server/src/ws.rs:215-231 | the commands in order up to the first that closes, each doing what it should after others acted; the replies are theirs in that order, the close is that command's, and the subscriptions not yet reported are exactly those the replies report |
| SocketModel.Answer | crates/centrifugo-server/src/ws.rs:232-251 | the replies in one frame, then the deferred Joins, then the close, others acting before each; Joins are kept back only if replies were lost because the writer is gone |
| SocketModel.ExpiryTurn | crates/centrifugo-server/src/ws.rs:163-177 | the proxy's verdict first, then overdue tokens; a connection left open has nothing overdue, one that is not has the reason queued as its close |
| SocketModel.SignalTurn | crates/centrifugo-server/src/ws.rs:178-193 | the next waiting signal is taken: out of the channel, or of every channel once, and told so; or closed with the signal's reason |
| SocketModel.HandleSocket | crates/centrifugo-server/src/ws.rs:142-260 | one turn for every event, each doing what it should, up to the one that ends the loop, then the disconnect, whatever the client sends and the server does in between: at the end no trace; Joins equal Leaves (plus the surplus of a repeating CONNECT, less Joins lost with the writer); every self-Join in the queue comes after the frame that reported the very subscription it is of, once, and no subscription is reported by two frames |
| Uvarint.EncodeUvarint | crates/centrifugo-protocol/src/codec.rs:39-45 | appends the base-128 encoding |
| Uvarint.DecodeUvarint | crates/centrifugo-protocol/src/codec.rs:48-62 | value modulo 2^64 and length of the varint at the start, none if it does not end in ten bytes |
| Uvarint.DecodeEncode | crates/centrifugo-protocol/src/codec.rs:39-62 | decoding undoes encoding for every u64 and suffix, in 1 to 10 bytes |
| Uvarint.EncodeIsShortest | crates/centrifugo-protocol/src/codec.rs:39-45 | no shorter run of bytes spells the same number |
| Uvarint.DecodePrefix | crates/centrifugo-protocol/src/codec.rs:48-62 | what follows a varint does not change it |
| Framing.EncodeFrames | crates/centrifugo-protocol/src/codec.rs:156-171 | the buffer is the framed bodies in order |
| Framing.DecodeFrames | crates/centrifugo-protocol/src/codec.rs:125-154 | the loop ends with every byte consumed or with an error |
| Framing.UnframeFrame | crates/centrifugo-protocol/src/codec.rs:75-122 | unframing undoes framing for every list of messages |
| Framing.FrameAppend | crates/centrifugo-protocol/src/codec.rs:101-122 | framing is a homomorphism over concatenation |
| Framing.UnframeConcat | crates/centrifugo-protocol/src/codec.rs:125-154 | frames glued together decode as one after the other |
| Framing.UnframeConsumesAll | crates/centrifugo-protocol/src/codec.rs:76-98 | a successful decode splits the frame into one segment for each message and nothing else |
| Writer.Coalesce | crates/centrifugo-server/src/ws.rs:88-103 | one to four frames, concatenated, stopping at a close or an empty queue |
| Writer.RunWriter | crates/centrifugo-server/src/ws.rs:77-140 | for every schedule: data messages merge one to four frames each and concatenate to the frames before the first close, which comes last with nothing after it |
| Writer.UnframeMerged | crates/centrifugo-server/src/ws.rs:83-103 | a merged message unframes to the messages of its frames in order |
| Writer.WriterIsTransparent | crates/centrifugo-server/src/ws.rs:77-140 | what is decoded from everything written is the messages of the queued frames in order: all before the first close, or a front part if the socket failed |
| OriginGlob.GlobMatch | crates/centrifugo-server/src/origin.rs:66-93 | the greedy loop ends and decides exactly the relation in which a literal match comes before `*` |
| OriginGlob.LaterAlignment | crates/centrifugo-server/src/origin.rs:79-84 | forgetting every `*` but the last loses no match |
| OriginGlob.LiteralFirstIsSound | crates/centrifugo-server/src/origin.rs:64-66 | whatever is accepted matches by the documented meaning of `*` and `?` |
| OriginGlob.AgreesExactlyWithoutStar | crates/centrifugo-server/src/origin.rs:64-93 | for a text, all patterns are decided as documented iff it has no `*` |
| OriginGlob.DecidedAsDocumentedWithoutStar | crates/centrifugo-server/src/origin.rs:64-93 | for a pattern, all texts are decided as documented iff it has no `*` |
| OriginGlob.StarRefusesExactly | crates/centrifugo-server/src/origin.rs:11-12 | the pattern `*`, meant to allow everything, refuses exactly the texts of more than one byte that start with a `*` |
| OriginGlob.OriginChecker.Check | crates/centrifugo-server/src/origin.rs:48-61 | no list, no header or an empty one allows; else a pattern must match the lower-cased header, in both directions for headers without `*` |
| OriginGlob.OriginChecker.New | crates/centrifugo-server/src/origin.rs:34-45 | everything is allowed iff no list is configured; a configured list is used as it is |
| OriginGlob.IgnoresCaseExactly | crates/centrifugo-server/src/origin.rs:57 | two headers are looked up alike iff they differ only in the case of letters, and one is looked up as it is iff it has no capitals |

## Left out

- Sockets, HTTP, gRPC, admin, metrics, Redis connections and Sentinel: input and output.
- JWT signatures, JWKS, JSON and protobuf bodies: libraries; tokens are outcomes and bodies byte strings.
- JSON line framing: raw payloads may contain newlines, so only the protobuf framing is a clean inverse.
- SockJS polling: its drain loop discards a queued close; the WebSocket writer is modelled.
- PING, RPC, PRESENCE and PRESENCE_STATS commands: they change no state, and appear as one command with any answer.
- Redis under a live connection: `Client` runs on the memory engine; the Redis engine is tied to it through the abstract stream and its own presence proof.
- Interleaving inside one command handler: modelled for subscribing against publishing only.
- Resolution of a channel's namespace and personal channel names: any function of the name.
- Namespace-dependent reconnect advice, error texts and the expiry fields of replies: plain copies.
- Pruning of stale nodes from the registry: a timer over last-seen times.
- Encoding failures of a reply or push: the encoders used cannot fail on these values.
- ClientModel.Client.OnConnect: the connection limit is checked for CONNECTs one at a time, since the check and the registration are separate sections in the program.
- ClientModel.Client.HandleCommand: does not model commands of the same connection running at once; the reader handles them one by one.
- RedisHistory.EpochsNeverRepeat: assumes the Redis clock does not run backwards.
- PushFormat.ExtractInvertsProducers: takes Lua's number formatting as exact decimals for all u64 offsets.
- RedisHistory.RedisChannel.AddHistory: the increment of the offset field does not overflow 64 bits.
