/** Fan-out of pushes to bounded queues and control signals to connections:
    `deliver_push`, `route_message` and `apply_control` in
    crates/centrifugo-core/src/node.rs. */
module NodeModel {
  import opened Common
  import opened Types
  import opened HubModel
  import opened StreamModel
  import opened SeqGen

  const WRITE_QUEUE := 256
  const CTRL_QUEUE := 64

  datatype Push =
    | PublicationPush(channel: Channel, publication: Publication)
    | JoinPush(channel: Channel, info: ClientInfo, ghost serial: nat)
    | LeavePush(channel: Channel, info: ClientInfo)
    | UnsubPush(channel: Channel)

  /** A subscription by its number among those its connection made, and its channel.
      The numbers are bookkeeping: a Join and the reply that announces the subscription
      carry the same one. */
  type Made = (nat, Channel)

  /** The result of a command. A CONNECT reports its subscriptions by channel. */
  datatype ReplyResult =
    | ErrorReply(code: u32)
    | ConnectReply(subs: map<Channel, SubscribeResult>, ghost made: set<Made>)
    | SubscribeReply(channel: Channel, result: SubscribeResult, ghost serial: nat)
    | HistoryReply(publications: seq<Publication>)
    | OkReply

  datatype Reply = Reply(cmd: nat, result: ReplyResult)

  /** What a frame carries: the replies to a batch of commands, or one push. */
  datatype Body = Replies(replies: seq<Reply>) | Pushed(push: Push)

  /** A frame as encoded for one protocol. */
  datatype WireFrame = WireFrame(proto: ProtocolType, body: Body)

  /** A writer queue: everything ever put in, how much the writer has taken, and
      whether the writer is gone. */
  datatype Queue = Queue(items: seq<Out<WireFrame>>, taken: nat, closed: bool) {
    predicate Room() { !closed && |items| - taken < WRITE_QUEUE }

    function Put(frame: WireFrame): Queue { this.(items := items + [Frame(frame)]) }
  }

  /** What a reader task is told by the server. */
  datatype Signal = UnsubscribeSignal(channel: Channel) | DisconnectSignal(disconnect: Disconnect)

  /** The frames of one push, one per protocol; none if encoding failed. */
  datatype Frames = Frames(json: Option<WireFrame>, protobuf: Option<WireFrame>) {
    function For(proto: ProtocolType): Option<WireFrame> {
      match proto
      case Json => json
      case Protobuf => protobuf
    }
  }

  /** A push encoded for one protocol. */
  function MakePushFrame(proto: ProtocolType, push: Push): Option<WireFrame> { Some(WireFrame(proto, Pushed(push))) }

  /** A push encoded once for each protocol. */
  function FramesOf(push: Push): Frames { Frames(MakePushFrame(Json, push), MakePushFrame(Protobuf, push)) }

  /** A live publication as it goes on the wire. */
  function OnTheWire(p: Publication, useSeqGen: bool): Publication {
    if useSeqGen && p.offset != 0 then ToSeqGen(p) else p
  }

  /** The push of a live publication. */
  function LivePush(channel: Channel, p: Publication, useSeqGen: bool): Push {
    PublicationPush(channel, OnTheWire(p, useSeqGen))
  }

  /** A publication without a position, or sent with its offset, is sent as it is. */
  lemma LiveUnchanged(p: Publication, useSeqGen: bool)
    requires p.offset == 0 || !useSeqGen
    ensures OnTheWire(p, useSeqGen) == p
  {
  }

  /** In seq/gen mode a live publication says where it stands by (seq, gen) only;
      below 2^32 a client that echoes them back gets the offset it had. */
  lemma LivePosition(p: Publication)
    requires p.sq == 0 && p.gen == 0 && 0 < p.offset < TWO_64
    ensures var w := OnTheWire(p, true);
            && w.offset == 0 && (w.sq > 0 || w.gen > 0)
            && RequestedOffset(WirePosition(w.sq, w.gen, w.offset)) == p.offset - p.offset / TWO_32
            && p.offset == w.gen * TWO_32 + w.sq
            && w.data == p.data && w.info == p.info
    ensures OnTheWire(p, false) == p
  {
    EchoNeverSkips(p.offset, true);
    SeqIsLow(p.offset);
    assert p.offset % TWO_64 == p.offset;
  }

  /** A client that resumes from the position of a live publication, in whichever form
      it got it, and is told it recovered gets at least everything after it. */
  lemma ResumingFromLive(s: Stream, o: nat, useSeqGen: bool)
    requires s.Valid() && 0 < o <= |s.log| < TWO_64
    requires var w := OnTheWire(At(s.log, o - 1), useSeqGen);
             Recovered(s.Since(RequestedOffset(WirePosition(w.sq, w.gen, w.offset))), s.Position(),
                       RequestedOffset(WirePosition(w.sq, w.gen, w.offset)), s.epoch)
    ensures var w := OnTheWire(At(s.log, o - 1), useSeqGen);
            var answer := s.Since(RequestedOffset(WirePosition(w.sq, w.gen, w.offset)));
            |answer| >= |s.After(o)| && answer[|answer| - |s.After(o)|..] == s.After(o)
  {
    LivePosition(At(s.log, o - 1));
    EchoNeverSkips(o, useSeqGen);
    ResumingMissesNothing(s, o, useSeqGen);
  }

  /** Offering a frame to a queue without waiting. */
  function Offer(q: Queue, frame: Option<WireFrame>): Queue {
    if frame.Some? && q.Room() then q.Put(frame.value) else q
  }

  /** The frame for this connection finds its queue full or closed. */
  predicate TooSlow(h: ClientHandle, frames: Frames, queues: map<nat, Queue>) {
    frames.For(h.proto).Some? && h.tx in queues && !queues[h.tx].Room()
  }

  /** The queues after offering one push to each of these handles in turn. */
  ghost function Offered(queues: map<nat, Queue>, handles: seq<ClientHandle>, frames: Frames): map<nat, Queue> {
    if handles == [] then queues
    else
      var h := handles[|handles| - 1];
      var qs := Offered(queues, handles[..|handles| - 1], frames);
      if h.tx in qs then qs[h.tx := Offer(qs[h.tx], frames.For(h.proto))] else qs
  }

  /** The handles a push finds slow, in turn. */
  ghost function SlowOnes(queues: map<nat, Queue>, handles: seq<ClientHandle>, frames: Frames): seq<ClientHandle> {
    if handles == [] then []
    else
      var h := handles[|handles| - 1];
      SlowOnes(queues, handles[..|handles| - 1], frames) + if TooSlow(h, frames, queues) then [h] else []
  }

  ghost function Ids(handles: seq<ClientHandle>): set<ClientId> { set h | h in handles :: h.id }

  function Txs(handles: seq<ClientHandle>): seq<nat> {
    seq(|handles|, i requires 0 <= i < |handles| => handles[i].tx)
  }

  ghost predicate DistinctTxs(handles: seq<ClientHandle>) {
    forall i, j :: 0 <= i < j < |handles| ==> handles[i].tx != handles[j].tx
  }

  /** Every queue of the list is offered its frame once, and no other queue changes. */
  lemma {:induction false} OfferedExactly(queues: map<nat, Queue>, handles: seq<ClientHandle>, frames: Frames)
    requires DistinctTxs(handles) && forall h :: h in handles ==> h.tx in queues
    ensures Offered(queues, handles, frames).Keys == queues.Keys
    ensures forall h :: h in handles ==> Offered(queues, handles, frames)[h.tx] == Offer(queues[h.tx], frames.For(h.proto))
    ensures forall tx :: tx in queues && (forall h :: h in handles ==> h.tx != tx) ==> Offered(queues, handles, frames)[tx] == queues[tx]
  {
    hide Offer, Frames.For;
    if handles != [] {
      var n := |handles| - 1;
      var before, h := handles[..n], handles[n];
      LastIsNew(handles);
      OfferedExactly(queues, before, frames);
      assert Offered(queues, handles, frames) == Offered(queues, before, frames)[h.tx := Offer(queues[h.tx], frames.For(h.proto))];
    }
  }

  lemma LastIsNew(handles: seq<ClientHandle>)
    requires DistinctTxs(handles) && handles != []
    ensures var before, h := handles[..|handles| - 1], handles[|handles| - 1];
            && DistinctTxs(before) && (forall g :: g in before ==> g.tx != h.tx)
            && forall g :: g in handles <==> g in before || g == h
  {
    assert handles == handles[..|handles| - 1] + [handles[|handles| - 1]];
  }

  /** A reader's control queue: what it has not taken yet, and whether the reader is gone. */
  datatype Inbox = Inbox(pending: seq<Signal>, closed: bool)

  /** The control queues after signalling each of these handles in turn. */
  ghost function SignalledAll(signals: map<nat, Inbox>, handles: seq<ClientHandle>, cmd: ControlMessage): map<nat, Inbox>
    requires !cmd.NodePing?
  {
    if handles == [] then signals
    else
      var h := handles[|handles| - 1];
      var before := SignalledAll(signals, handles[..|handles| - 1], cmd);
      if Addressed(h, cmd) && h.tx in before then before[h.tx := Signalled(before[h.tx], SignalOf(cmd).value)] else before
  }

  lemma {:induction false} SignalledExactly(signals: map<nat, Inbox>, handles: seq<ClientHandle>, cmd: ControlMessage)
    requires !cmd.NodePing? && DistinctTxs(handles) && forall h :: h in handles && h.hasCtrl ==> h.tx in signals
    ensures var r := SignalledAll(signals, handles, cmd);
            && r.Keys == signals.Keys
            && (forall h :: h in handles && Addressed(h, cmd) ==> r[h.tx] == Signalled(signals[h.tx], SignalOf(cmd).value))
            && (forall tx :: tx in signals && (forall h :: h in handles && Addressed(h, cmd) ==> h.tx != tx) ==> r[tx] == signals[tx])
  {
    assert forall h :: Addressed(h, cmd) ==> h.hasCtrl;
    hide Addressed, Signalled;
    if handles != [] {
      var n := |handles| - 1;
      var before, h := handles[..n], handles[n];
      LastIsNew(handles);
      SignalledExactly(signals, before, cmd);
      var r0, r := SignalledAll(signals, before, cmd), SignalledAll(signals, handles, cmd);
      if Addressed(h, cmd) {
        assert r0[h.tx] == signals[h.tx] && r == r0[h.tx := Signalled(signals[h.tx], SignalOf(cmd).value)];
      } else {
        assert r == r0;
      }
    }
  }

  /** The slow ones of a list are those whose queue has no room. */
  lemma {:induction false} SlowOnesExactly(queues: map<nat, Queue>, handles: seq<ClientHandle>, frames: Frames)
    ensures forall h :: h in SlowOnes(queues, handles, frames) <==> h in handles && TooSlow(h, frames, queues)
  {
    if handles != [] {
      var n := |handles| - 1;
      SlowOnesExactly(queues, handles[..n], frames);
      assert handles == handles[..n] + [handles[n]];
    }
  }

  /** The signal a control command sends, and the connections it is meant for: the
      user's, except the whitelisted ones, that accept control at all. */
  function SignalOf(cmd: ControlMessage): Option<Signal> {
    match cmd
    case Unsubscribe(_, channel) => Some(UnsubscribeSignal(channel))
    case DisconnectUser(_, code, reason, reconnect, _) => Some(DisconnectSignal(Disconnect(code, reason, reconnect)))
    case NodePing(_) => None
  }

  predicate Addressed(h: ClientHandle, cmd: ControlMessage) {
    match cmd
    case Unsubscribe(user, _) => h.user == user && h.hasCtrl
    case DisconnectUser(user, _, _, _, whitelist) => h.user == user && h.hasCtrl && h.id !in whitelist
    case NodePing(_) => false
  }

  /** Signalling without waiting: a full queue, or one whose reader is gone, drops the
      signal. */
  function Signalled(inbox: Inbox, signal: Signal): Inbox {
    if !inbox.closed && |inbox.pending| < CTRL_QUEUE then inbox.(pending := inbox.pending + [signal]) else inbox
  }

  /** A queue that takes no more: its writer is gone, or 256 items wait. */
  ghost predicate Full(q: Queue) { q.closed || |q.items| - q.taken >= 256 }

  /** One push offered once to each registered subscriber, encoded for the protocol of
      its connection, and to nobody else. */
  ghost predicate Delivered(queues: map<nat, Queue>, before: map<nat, Queue>, conns: map<ClientId, ClientHandle>, rel: Relation, push: Push)
  {
    && queues.Keys == before.Keys
    && (forall id :: id in conns && (id, push.channel) in rel && conns[id].tx in before ==>
          var q := before[conns[id].tx];
          queues[conns[id].tx] ==
            if Full(q) then q else q.(items := q.items + [Frame(WireFrame(conns[id].proto, Pushed(push)))]))
    && (forall tx :: tx in queues && (forall id :: id in conns && (id, push.channel) in rel ==> conns[id].tx != tx) ==>
          queues[tx] == before[tx])
  }

  /** The same with frames that were encoded before. */
  ghost predicate FramesDelivered(queues: map<nat, Queue>, before: map<nat, Queue>, conns: map<ClientId, ClientHandle>, rel: Relation,
                                  channel: Channel, frames: Frames)
  {
    && queues.Keys == before.Keys
    && (forall id :: id in conns && (id, channel) in rel && conns[id].tx in before ==>
          var h := conns[id]; queues[h.tx] == Offer(before[h.tx], frames.For(h.proto)))
    && (forall tx :: tx in queues && (forall id :: id in conns && (id, channel) in rel ==> conns[id].tx != tx) ==>
          queues[tx] == before[tx])
  }

  lemma FramesFit(q: Queue, push: Push, proto: ProtocolType)
    ensures Offer(q, FramesOf(push).For(proto)) == if Full(q) then q else q.(items := q.items + [Frame(WireFrame(proto, Pushed(push)))])
    ensures FramesOf(push).For(proto).Some? && (Full(q) <==> !q.Room())
  {
  }

  /** A control queue after a command, for a connection that accepts control: the
      signal, if the command is for this connection and the queue takes it. */
  ghost function AfterControl(inbox: Inbox, h: ClientHandle, cmd: ControlMessage): Inbox {
    if inbox.closed || |inbox.pending| >= 64 then inbox
    else match cmd
      case NodePing(_) => inbox
      case Unsubscribe(user, channel) =>
        if h.user == user then Inbox(inbox.pending + [UnsubscribeSignal(channel)], false) else inbox
      case DisconnectUser(user, code, reason, reconnect, whitelist) =>
        if h.user == user && h.id !in whitelist
        then Inbox(inbox.pending + [DisconnectSignal(Disconnect(code, reason, reconnect))], false) else inbox
  }

  /** Every connection that accepts control got what the command has for it, and no
      other queue changed. */
  ghost predicate ControlApplied(conns: map<ClientId, ClientHandle>, now: map<nat, Inbox>, before: map<nat, Inbox>, cmd: ControlMessage) {
    && now.Keys == before.Keys
    && (forall id :: id in conns && conns[id].hasCtrl && conns[id].tx in before ==>
          now[conns[id].tx] == AfterControl(before[conns[id].tx], conns[id], cmd))
    && (forall tx :: tx in now && (forall id :: id in conns && conns[id].hasCtrl ==> conns[id].tx != tx) ==> now[tx] == before[tx])
  }

  lemma ControlExactly(inbox: Inbox, h: ClientHandle, cmd: ControlMessage)
    requires h.hasCtrl
    ensures AfterControl(inbox, h, cmd) == if Addressed(h, cmd) then Signalled(inbox, SignalOf(cmd).value) else inbox
  {
  }

  class Node {
    const hub: Hub
    const useSeqGen: bool

    var queues: map<nat, Queue>
    var signals: map<nat, Inbox>
    /** Known cluster nodes by uid. */
    var registry: map<string, NodeInfo>
    /** Queues for which a `Close(slow)` was scheduled, in order. */
    var slowCloses: seq<nat>
    /** Queues of every connection ever registered. */
    ghost var everRegistered: set<nat>

    ghost predicate Valid()
      reads this, hub, hub.shards
    {
      && hub.Valid()
      && (forall id :: id in hub.conns ==> hub.conns[id].tx in everRegistered)
      && everRegistered <= queues.Keys
      && (forall id :: id in hub.conns && hub.conns[id].hasCtrl ==> hub.conns[id].tx in signals)
      && (forall a, b :: a in hub.conns && b in hub.conns && hub.conns[a].tx == hub.conns[b].tx ==> a == b)
      && (forall i :: 0 <= i < |slowCloses| ==> slowCloses[i] in everRegistered)
      && (forall i, id :: 0 <= i < |slowCloses| && id in hub.conns ==> hub.conns[id].tx != slowCloses[i])
      && (forall i, j :: 0 <= i < j < |slowCloses| ==> slowCloses[i] != slowCloses[j])
    }

    /** The registered subscribers a push on `channel` reaches. */
    ghost function Reached(channel: Channel): set<ClientId>
      reads this, hub
    {
      set id | id in hub.conns && (id, channel) in hub.rel
    }

    /** Those whose queue is full. */
    ghost function Slow(channel: Channel): set<ClientId>
      reads this, hub
    {
      set id | id in Reached(channel) && hub.conns[id].tx in queues && Full(queues[hub.conns[id].tx])
    }

    /** Those whose queue cannot take the frame. */
    ghost function Dropped(channel: Channel, frames: Frames): set<ClientId>
      reads this, hub
    {
      set id | id in Reached(channel) && TooSlow(hub.conns[id], frames, queues)
    }

    ghost function TxsOfIds(ids: set<ClientId>): set<nat>
      reads this, hub
    {
      set id | id in ids && id in hub.conns :: hub.conns[id].tx
    }

    constructor (hash: Channel -> nat, useSeqGen: bool)
      ensures Valid() && fresh(hub) && fresh(hub.shards)
      ensures this.useSeqGen == useSeqGen && queues == map[] && signals == map[] && slowCloses == [] && everRegistered == {}
      ensures hub.conns == map[] && hub.rel == {}
    {
      var h := new Hub(hash);
      hub := h;
      this.useSeqGen := useSeqGen;
      queues, signals, registry, slowCloses, everRegistered := map[], map[], map[], [], {};
    }

    /** Registers a connection under a fresh id; its queue was never registered. */
    method Register(handle: ClientHandle)
      requires Valid() && handle.id !in hub.conns && handle.tx in queues && handle.tx !in everRegistered
      requires handle.hasCtrl ==> handle.tx in signals
      modifies this`everRegistered, hub`conns, hub`users
      ensures Valid() && hub.conns == old(hub.conns)[handle.id := handle]
      ensures everRegistered == old(everRegistered) + {handle.tx}
    {
      hub.Add(handle);
      everRegistered := everRegistered + {handle.tx};
    }

    /** A new connection with queues of its own. */
    method Connect(handle: ClientHandle)
      requires Valid() && handle.id !in hub.conns && handle.tx !in queues
      modifies this`queues, this`signals, this`everRegistered, hub`conns, hub`users
      ensures Valid() && hub.conns == old(hub.conns)[handle.id := handle]
      ensures queues == old(queues)[handle.tx := Queue([], 0, false)] && signals == old(signals)[handle.tx := Inbox([], false)]
      ensures everRegistered == old(everRegistered) + {handle.tx}
    {
      queues := queues[handle.tx := Queue([], 0, false)];
      signals := signals[handle.tx := Inbox([], false)];
      Register(handle);
    }

    /** The reader takes its next control signal, if there is one. */
    method TakeSignal(tx: nat) returns (signal: Option<Signal>)
      requires Valid() && tx in signals
      modifies this`signals
      ensures Valid() && signals.Keys == old(signals).Keys
      ensures match signal
              case None => old(signals)[tx].pending == [] && signals == old(signals)
              case Some(s) =>
                && old(signals)[tx].pending != [] && s == old(signals)[tx].pending[0]
                && signals == old(signals)[tx := Inbox(old(signals)[tx].pending[1..], old(signals)[tx].closed)]
    {
      var pending := signals[tx].pending;
      if pending == [] { return None; }
      signals := signals[tx := signals[tx].(pending := pending[1..])];
      signal := Some(pending[0]);
    }

    /** The reader of a connection goes away, and its control queue with it. */
    method CloseReader(tx: nat)
      requires Valid() && tx in signals
      modifies this`signals
      ensures Valid() && signals == old(signals)[tx := old(signals)[tx].(closed := true)]
    {
      signals := signals[tx := signals[tx].(closed := true)];
    }

    /** The writer takes some of what is queued, or goes away. */
    method WriterTurn(tx: nat, n: nat, gone: bool)
      requires Valid()
      modifies this`queues
      ensures Valid() && queues.Keys == old(queues).Keys
      ensures forall t :: t in queues ==> queues[t].items == old(queues)[t].items
      ensures tx in queues ==> queues[tx].closed == (old(queues)[tx].closed || gone)
      ensures forall t :: t in queues && t != tx ==> queues[t] == old(queues)[t]
    {
      if tx in queues {
        var q := queues[tx];
        var taken := if q.taken + n <= |q.items| then q.taken + n else |q.items|;
        queues := queues[tx := q.(taken := taken, closed := q.closed || gone)];
      }
    }

    method Subscribe(id: ClientId, channel: Channel)
      requires Valid()
      modifies hub`rel, hub.shards
      ensures Valid() && hub.rel == old(hub.rel) + {(id, channel)}
    {
      hub.Subscribe(id, channel);
    }

    method Unsubscribe(id: ClientId, channel: Channel)
      requires Valid()
      modifies hub`rel, hub.shards
      ensures Valid() && hub.rel == old(hub.rel) - {(id, channel)}
    {
      hub.Unsubscribe(id, channel);
    }

    method Remove(id: ClientId)
      requires Valid()
      modifies hub`conns, hub`users, hub`rel, hub.shards
      ensures Valid() && hub.conns == old(hub.conns) - {id} && hub.rel == WithoutClient(old(hub.rel), id)
    {
      var _ := hub.Remove(id);
    }

    /** A connection's own send: it waits until the writer has made room, and fails
        if the writer is gone. */
    method Send(tx: nat, item: Out<WireFrame>) returns (sent: bool)
      requires Valid() && tx in queues
      modifies this`queues
      ensures Valid() && queues.Keys == old(queues).Keys
      ensures sent == !old(queues[tx].closed) == !queues[tx].closed
      ensures queues[tx].items == if sent then old(queues[tx].items) + [item] else old(queues[tx].items)
      ensures sent ==> |queues[tx].items| - queues[tx].taken <= 256
      ensures forall t :: t in queues && t != tx ==> queues[t] == old(queues)[t]
    {
      var q := queues[tx];
      sent := !q.closed;
      if sent {
        var taken := if q.Room() then q.taken else |q.items| - WRITE_QUEUE + 1;
        queues := queues[tx := q.(items := q.items + [item], taken := taken)];
      }
    }

    /** Offers one push to every registered subscriber of its channel. A subscriber with
        room gets exactly one frame, of its own protocol; a full or closed one is taken
        out of the hub and has one slow close scheduled; nothing else changes. */
    method DeliverPush(push: Push)
      requires Valid()
      modifies this`queues, this`slowCloses, hub`conns, hub`users, hub`rel, hub.shards
      ensures Valid() && Delivered(queues, old(queues), old(hub.conns), old(hub.rel), push)
      ensures hub.conns == old(hub.conns) - old(Slow(push.channel))
      ensures hub.rel == WithoutClients(old(hub.rel), old(Slow(push.channel)))
      ensures old(slowCloses) <= slowCloses
      ensures forall tx :: tx in slowCloses[|old(slowCloses)|..] <==> tx in old(TxsOfIds(Slow(push.channel)))
    {
      hide FramesOf, Offer;
      var frames := FramesOf(push);
      SlowAreDropped(push);
      OfferFrames(push.channel, frames);
      FramesDeliver(old(queues), old(hub.conns), old(hub.rel), push);
    }

    lemma SlowAreDropped(push: Push)
      requires Valid()
      ensures Slow(push.channel) == Dropped(push.channel, FramesOf(push))
    {
      forall id | id in Reached(push.channel) ensures id in Slow(push.channel) <==> id in Dropped(push.channel, FramesOf(push)) {
        FramesFit(queues[hub.conns[id].tx], push, hub.conns[id].proto);
      }
    }

    lemma FramesDeliver(before: map<nat, Queue>, conns: map<ClientId, ClientHandle>, rel: Relation, push: Push)
      requires FramesDelivered(queues, before, conns, rel, push.channel, FramesOf(push))
      ensures Delivered(queues, before, conns, rel, push)
    {
      forall id | id in conns && (id, push.channel) in rel && conns[id].tx in before
        ensures var q := before[conns[id].tx];
                queues[conns[id].tx] == if Full(q) then q else q.(items := q.items + [Frame(WireFrame(conns[id].proto, Pushed(push)))])
      {
        FramesFit(before[conns[id].tx], push, conns[id].proto);
      }
    }

    /** The same for frames encoded before. */
    method OfferFrames(channel: Channel, frames: Frames)
      requires Valid()
      modifies this`queues, this`slowCloses, hub`conns, hub`users, hub`rel, hub.shards
      ensures Valid()
      ensures FramesDelivered(queues, old(queues), old(hub.conns), old(hub.rel), channel, frames)
      ensures hub.conns == old(hub.conns) - old(Dropped(channel, frames))
      ensures hub.rel == WithoutClients(old(hub.rel), old(Dropped(channel, frames)))
      ensures old(slowCloses) <= slowCloses
      ensures forall tx :: tx in slowCloses[|old(slowCloses)|..] <==>
                tx in old(TxsOfIds(Dropped(channel, frames)))
    {
      var handles := hub.Subscribers(channel);
      ghost var reached := SubscribersOf(hub.rel, channel);
      ListedTxs(handles, reached);
      ReachedIsListed(channel, handles);
      OfferedExactly(queues, handles, frames);
      DroppedAreSlow(channel, handles, frames);
      ghost var before := slowCloses;
      OfferAll(handles, frames);
      assert slowCloses[|before|..] == Txs(SlowOnes(old(queues), handles, frames));
    }

    lemma ListedTxs(handles: seq<ClientHandle>, ids: set<ClientId>)
      requires Valid() && Lists(handles, ids, hub.conns)
      ensures DistinctTxs(handles) && forall h :: h in handles ==> h.tx in queues && h.id in hub.conns && hub.conns[h.id] == h
    {
      forall i, j | 0 <= i < j < |handles| ensures handles[i].tx != handles[j].tx {
        assert handles[i] in handles && handles[j] in handles;
      }
    }

    lemma ReachedIsListed(channel: Channel, handles: seq<ClientHandle>)
      requires Valid() && Lists(handles, SubscribersOf(hub.rel, channel), hub.conns)
      ensures forall id :: id in Reached(channel) <==> id in hub.conns && hub.conns[id] in handles
    {
      forall id ensures id in Reached(channel) <==> id in hub.conns && hub.conns[id] in handles {
        if (id, channel) in hub.rel { assert (id, channel).0 in SubscribersOf(hub.rel, channel); }
      }
    }

    lemma DroppedAreSlow(channel: Channel, handles: seq<ClientHandle>, frames: Frames)
      requires Valid() && Lists(handles, SubscribersOf(hub.rel, channel), hub.conns)
      ensures var slow := SlowOnes(queues, handles, frames);
              && Ids(slow) == Dropped(channel, frames)
              && forall tx :: tx in Txs(slow) <==> tx in TxsOfIds(Dropped(channel, frames))
    {
      var slow := SlowOnes(queues, handles, frames);
      SlowOnesExactly(queues, handles, frames);
      ReachedIsListed(channel, handles);
      assert Ids(slow) == Dropped(channel, frames);
      forall tx ensures tx in Txs(slow) <==> tx in TxsOfIds(Dropped(channel, frames)) {
        if tx in Txs(slow) {
          var i :| 0 <= i < |slow| && slow[i].tx == tx;
          assert slow[i] in slow && slow[i].id in Dropped(channel, frames);
        }
        if tx in TxsOfIds(Dropped(channel, frames)) {
          var id :| id in Dropped(channel, frames) && hub.conns[id].tx == tx;
          var i :| 0 <= i < |slow| && slow[i] == hub.conns[id];
          assert Txs(slow)[i] == tx;
        }
      }
    }

    /** The broadcast loop. */
    method OfferAll(handles: seq<ClientHandle>, frames: Frames)
      requires Valid() && DistinctTxs(handles)
      requires forall h :: h in handles ==> h.tx in queues && h.id in hub.conns && hub.conns[h.id] == h
      modifies this`queues, this`slowCloses, hub`conns, hub`users, hub`rel, hub.shards
      ensures Valid() && queues == Offered(old(queues), handles, frames)
      ensures hub.conns == old(hub.conns) - Ids(SlowOnes(old(queues), handles, frames))
      ensures hub.rel == WithoutClients(old(hub.rel), Ids(SlowOnes(old(queues), handles, frames)))
      ensures slowCloses == old(slowCloses) + Txs(SlowOnes(old(queues), handles, frames))
    {
      ghost var queues0, conns0, rel0, slow0 := queues, hub.conns, hub.rel, slowCloses;
      RestStart(handles, frames);
      var i := 0;
      while i < |handles|
        invariant i <= |handles| && Valid()
        invariant queues == Offered(queues0, handles[..i], frames)
        invariant Rest(conns0, rel0, slow0, SlowOnes(queues0, handles[..i], frames))
      {
        OfferNext(handles, i, frames, queues0, conns0, rel0, slow0);
        i := i + 1;
      }
      assert handles[..i] == handles;
    }

    /** The hub and the scheduled closes once these connections were found slow. */
    ghost predicate Rest(conns0: map<ClientId, ClientHandle>, rel0: Relation, slow0: seq<nat>, slow: seq<ClientHandle>)
      reads this, hub
    {
      && hub.conns == conns0 - Ids(slow)
      && hub.rel == WithoutClients(rel0, Ids(slow))
      && slowCloses == slow0 + Txs(slow)
    }

    lemma RestStart(handles: seq<ClientHandle>, frames: Frames)
      ensures Offered(queues, handles[..0], frames) == queues
      ensures Rest(hub.conns, hub.rel, slowCloses, SlowOnes(queues, handles[..0], frames))
    {
      OneMoreWithout(hub.rel, {}, "");
      assert slowCloses + [] == slowCloses;
    }

    /** One turn of the broadcast loop. */
    method OfferNext(handles: seq<ClientHandle>, i: nat, frames: Frames, ghost queues0: map<nat, Queue>,
                     ghost conns0: map<ClientId, ClientHandle>, ghost rel0: Relation, ghost slow0: seq<nat>)
      requires Valid() && i < |handles| && DistinctTxs(handles)
      requires forall h :: h in handles ==> h.tx in queues0 && h.id in conns0 && conns0[h.id] == h
      requires queues == Offered(queues0, handles[..i], frames)
      requires Rest(conns0, rel0, slow0, SlowOnes(queues0, handles[..i], frames))
      modifies this`queues, this`slowCloses, hub`conns, hub`users, hub`rel, hub.shards
      ensures Valid() && queues == Offered(queues0, handles[..i + 1], frames)
      ensures Rest(conns0, rel0, slow0, SlowOnes(queues0, handles[..i + 1], frames))
    {
      hide Valid, HubModel.Hub.Valid, Offered, SlowOnes, TooSlow, Offer, WithoutClients, Txs, WithoutClient;
      var h := handles[i];
      NotYetOffered(queues0, handles, i, frames);
      ghost var slow := SlowOnes(queues0, handles[..i], frames);
      SlowOnesExactly(queues0, handles[..i], frames);
      assert forall g :: g in slow ==> g in handles[..i];
      SnocSlow(queues0, handles, i, frames, slow);
      OneMoreWithout(rel0, Ids(slow), h.id);
      assert h in handles && h.id in hub.conns;
      OfferTo(h, frames);
      assert conns0 - Ids(slow) - {h.id} == conns0 - (Ids(slow) + {h.id});
    }

    lemma SnocSlow(queues0: map<nat, Queue>, handles: seq<ClientHandle>, i: nat, frames: Frames, slow: seq<ClientHandle>)
      requires i < |handles| && slow == SlowOnes(queues0, handles[..i], frames)
      requires handles[i].tx in Offered(queues0, handles[..i], frames)
      ensures handles[..i + 1][..i] == handles[..i] && handles[..i + 1][i] == handles[i]
      ensures var h, qs := handles[i], Offered(queues0, handles[..i], frames);
              Offered(queues0, handles[..i + 1], frames) == qs[h.tx := Offer(qs[h.tx], frames.For(h.proto))]
      ensures SlowOnes(queues0, handles[..i + 1], frames) == if TooSlow(handles[i], frames, queues0) then slow + [handles[i]] else slow
      ensures Ids(slow + [handles[i]]) == Ids(slow) + {handles[i].id}
      ensures Txs(slow + [handles[i]]) == Txs(slow) + [handles[i].tx]
    {
      assert handles[..i + 1][..i] == handles[..i];
      assert slow + [] == slow;
    }

    lemma NotYetOffered(queues0: map<nat, Queue>, handles: seq<ClientHandle>, i: nat, frames: Frames)
      requires i < |handles| && DistinctTxs(handles) && forall h :: h in handles ==> h.tx in queues0
      ensures handles[i].tx in Offered(queues0, handles[..i], frames)
      ensures Offered(queues0, handles[..i], frames)[handles[i].tx] == queues0[handles[i].tx]
      ensures TooSlow(handles[i], frames, Offered(queues0, handles[..i], frames)) == TooSlow(handles[i], frames, queues0)
      ensures forall j :: 0 <= j < i ==> handles[j].tx != handles[i].tx
    {
      OfferedExactly(queues0, handles[..i], frames);
    }

    /** Offers the push to one connection. */
    method OfferTo(h: ClientHandle, frames: Frames)
      requires Valid() && h.tx in queues
      requires h.id in hub.conns ==> hub.conns[h.id] == h
      modifies this`queues, this`slowCloses, hub`conns, hub`users, hub`rel, hub.shards
      ensures Valid() && queues == old(queues)[h.tx := Offer(old(queues)[h.tx], frames.For(h.proto))]
      ensures if old(TooSlow(h, frames, queues)) then
                && hub.conns == old(hub.conns) - {h.id} && hub.rel == WithoutClient(old(hub.rel), h.id)
                && slowCloses == old(slowCloses) + (if h.id in old(hub.conns) then [h.tx] else [])
              else hub.conns == old(hub.conns) && hub.rel == old(hub.rel) && slowCloses == old(slowCloses)
    {
      var frame := frames.For(h.proto);
      if frame == None { return; }
      if queues[h.tx].Room() {
        queues := queues[h.tx := queues[h.tx].Put(frame.value)];
      } else {
        DropSlow(h);
      }
    }

    /** Takes a slow or gone consumer out of the hub and, if it was still there,
        schedules its close. */
    method DropSlow(handle: ClientHandle)
      requires Valid()
      requires handle.id in hub.conns ==> hub.conns[handle.id] == handle
      modifies this`slowCloses, hub`conns, hub`users, hub`rel, hub.shards
      ensures Valid() && hub.conns == old(hub.conns) - {handle.id}
      ensures hub.rel == WithoutClient(old(hub.rel), handle.id)
      ensures slowCloses == old(slowCloses) + if handle.id in old(hub.conns) then [handle.tx] else []
    {
      hide HubModel.Hub.Valid;
      var wasPresent := hub.Remove(handle.id);
      if wasPresent {
        slowCloses := slowCloses + [handle.tx];
      }
    }

    /** A publication from an engine, to every subscriber, in the node's wire mode. */
    method RoutePublication(channel: Channel, publication: Publication)
      requires Valid()
      modifies this`queues, this`slowCloses, hub`conns, hub`users, hub`rel, hub.shards
      ensures Valid() && Delivered(queues, old(queues), old(hub.conns), old(hub.rel), LivePush(channel, publication, useSeqGen))
      ensures hub.conns == old(hub.conns) - old(Slow(channel)) && hub.rel == WithoutClients(old(hub.rel), old(Slow(channel)))
    {
      hide Valid, Delivered;
      DeliverPush(PublicationPush(channel, OnTheWire(publication, useSeqGen)));
    }

    /** A control command, offered to exactly the connections it is meant for. */
    method ApplyControl(cmd: ControlMessage)
      requires Valid()
      modifies this`signals, this`registry
      ensures Valid() && ControlApplied(hub.conns, signals, old(signals), cmd)
      ensures registry == if cmd.NodePing? then old(registry)[cmd.info.uid := cmd.info] else old(registry)
    {
      match cmd
      case NodePing(info) => registry := registry[info.uid := info];
      case Unsubscribe(user, _) => SignalUser(user, cmd);
      case DisconnectUser(user, _, _, _, _) => SignalUser(user, cmd);
    }

    /** The API call that takes a user's connections out of a channel, here and, by the
        command it returns for the bus, on the other nodes. */
    method UnsubscribeUser(user: string, channel: Channel) returns (publish: ControlMessage)
      requires Valid()
      modifies this`signals, this`registry
      ensures Valid() && publish == ControlMessage.Unsubscribe(user, channel)
      ensures ControlApplied(hub.conns, signals, old(signals), publish) && registry == old(registry)
    {
      publish := ControlMessage.Unsubscribe(user, channel);
      ApplyControl(publish);
    }

    /** The API call that disconnects a user: without reconnect, sparing no connection. */
    method DisconnectUserNow(user: string, code: u32, reason: string) returns (publish: ControlMessage)
      requires Valid()
      modifies this`signals, this`registry
      ensures Valid() && publish == DisconnectUser(user, code, reason, false, [])
      ensures ControlApplied(hub.conns, signals, old(signals), publish) && registry == old(registry)
    {
      publish := DisconnectUser(user, code, reason, false, []);
      ApplyControl(publish);
    }

    method SignalUser(user: string, cmd: ControlMessage)
      requires Valid() && !cmd.NodePing? && cmd.user == user
      modifies this`signals
      ensures Valid() && ControlApplied(hub.conns, signals, old(signals), cmd)
    {
      hide SignalOf, Signalled, SignalledAll, ControlApplied, HubModel.Hub.Valid;
      var handles := UsersHandles(user);
      SignalsExact(signals, handles, cmd);
      SignalHandles(handles, cmd);
    }

    method UsersHandles(user: string) returns (handles: seq<ClientHandle>)
      requires Valid()
      ensures Lists(handles, (set id | id in hub.conns && hub.conns[id].user == user), hub.conns)
      ensures forall h :: h in handles ==> h.user == user && (h.hasCtrl ==> h.tx in signals)
    {
      handles := hub.UserClients(user);
    }

    lemma SignalsExact(before: map<nat, Inbox>, handles: seq<ClientHandle>, cmd: ControlMessage)
      requires Valid() && before.Keys == signals.Keys && !cmd.NodePing?
      requires Lists(handles, (set id | id in hub.conns && hub.conns[id].user == cmd.user), hub.conns)
      ensures ControlApplied(hub.conns, SignalledAll(before, handles, cmd), before, cmd)
    {
      hide SignalOf, Signalled, SignalledAll, AfterControl;
      ListedTxs(handles, set id | id in hub.conns && hub.conns[id].user == cmd.user);
      SignalledExactly(before, handles, cmd);
      forall id | id in hub.conns && hub.conns[id].hasCtrl
        ensures SignalledAll(before, handles, cmd)[hub.conns[id].tx] == AfterControl(before[hub.conns[id].tx], hub.conns[id], cmd)
      {
        var h := hub.conns[id];
        ControlExactly(before[h.tx], h, cmd);
        assert Addressed(h, cmd) ==> h in handles;
      }
    }

    /** The loop over a user's connections. */
    method SignalHandles(handles: seq<ClientHandle>, cmd: ControlMessage)
      requires !cmd.NodePing? && DistinctTxs(handles)
      requires forall h :: h in handles ==> h.user == cmd.user && (h.hasCtrl ==> h.tx in signals)
      modifies this`signals
      ensures signals == SignalledAll(old(signals), handles, cmd) && signals.Keys == old(signals).Keys
    {
      ghost var before := signals;
      var i := 0;
      while i < |handles|
        invariant i <= |handles| && signals.Keys == before.Keys
        invariant signals == SignalledAll(before, handles[..i], cmd)
      {
        var h := handles[i];
        assert handles[..i + 1][..i] == handles[..i] && h in handles;
        if (cmd.Unsubscribe? || h.id !in cmd.whitelist) && h.hasCtrl {
          if !signals[h.tx].closed && |signals[h.tx].pending| < CTRL_QUEUE {
            signals := signals[h.tx := signals[h.tx].(pending := signals[h.tx].pending + [SignalOf(cmd).value])];
          } else {
            assert signals == signals[h.tx := signals[h.tx]];
          }
        }
        i := i + 1;
      }
      assert handles[..i] == handles;
    }
  }
}
