/** A connection's state machine: the handlers of crates/centrifugo-core/src/client.rs
    that change the connection, the hub or the engine. */
module ClientModel {
  import opened Common
  import opened Types
  import opened HubModel
  import opened NodeModel
  import opened StreamModel
  import opened SeqGen
  import opened Session
  import opened Memory
  import opened Commands
  import opened Effects

  class Client {
    const node: Node
    const engine: MemoryEngine
    const tx: nat
    const proto: ProtocolType
    const settings: Settings

    var id: ClientId
    var user: string
    var authenticated: bool
    var connInfo: Option<Bytes>
    var expireAt: int
    var subscriptions: Subscriptions
    var pendingJoins: seq<Deferred>

    /** Joins and Leaves this connection published, by channel. */
    ghost var joins: multiset<Channel>
    ghost var leaves: multiset<Channel>
    /** How often CONNECT subscribed an announcing channel it already had. */
    ghost var surplus: multiset<Channel>
    /** Subscriptions made whose reply is not in the queue yet. */
    ghost var unsent: set<Made>
    /** The number of the next subscription. */
    ghost var next: nat

    /** Everything ever put into the connection's queue. */
    ghost function Items(): seq<Out<WireFrame>>
      reads node`queues
    {
      if tx in node.queues then node.queues[tx].items else []
    }

    ghost function Here(): World
      reads node.hub`conns, node.hub`rel, engine`present
    {
      World(node.hub.conns, node.hub.rel, engine.present)
    }

    ghost function Setting(): Setup { Setup(settings, node.useSeqGen, engine.metaTtl, tx, proto) }

    ghost function Me(): Mine
      reads this
    {
      Mine(id, user, authenticated, connInfo, expireAt, subscriptions, pendingJoins, joins, leaves, surplus, unsent, next)
    }

    ghost function There(): Server
      reads node, node.hub, engine
    {
      Server(Here(), engine.presence, engine.streams, engine.history, node.queues, node.signals, node.slowCloses)
    }

    ghost function Now(): Snapshot
      reads this, node, node.hub, engine
    {
      Snapshot(Me(), There())
    }

    ghost function Pending(): seq<Made>
      reads this
    {
      MadeOf(pendingJoins)
    }

    /** The server this connection hangs on is sound. */
    ghost predicate ServerValid()
      reads node, node.hub, node.hub.shards, engine
    {
      node.Valid() && engine.Valid() && tx in node.queues && tx in node.signals
    }

    /** The connection and the server agree, with these Joins still to be published. */
    ghost predicate Owing(pending: seq<Made>)
      reads this, node, node.hub, node.hub.shards, engine
    {
      && ServerValid()
      && Attached(node.hub.conns, id, tx)
      && Agrees(Here(), id, subscriptions)
      && Ledger(joins, JoinChannels(pending), leaves, subscriptions, surplus)
      && Order(Items(), id, pending, unsent, next)
    }

    /** What every command, signal and timer keeps. */
    ghost predicate Valid()
      reads this, node, node.hub, node.hub.shards, engine
    {
      Owing(Pending()) && (authenticated || Unborn())
    }

    /** Before CONNECT nothing is known of the client anywhere. */
    ghost predicate Unborn()
      reads this, node, node.hub, engine
    {
      && tx in node.queues && Unpushed(Items())
      && tx !in node.everRegistered && NoTrace(Here(), id)
      && subscriptions == map[] && pendingJoins == []
      && joins == leaves == surplus == multiset{} && unsent == {}
    }

    /** A connection that has not sent CONNECT; its queue is new and empty. */
    constructor (node: Node, engine: MemoryEngine, tx: nat, proto: ProtocolType, settings: Settings)
      requires node.Valid() && engine.Valid() && tx in node.queues && tx in node.signals
      requires node.queues[tx].items == [] && tx !in node.everRegistered
      requires NoTrace(World(node.hub.conns, node.hub.rel, engine.present), "")
      ensures Valid() && !authenticated && id == "" && pendingJoins == [] && unsent == {} && surplus == multiset{}
      ensures this.node == node && this.engine == engine && Setting() == Setup(settings, node.useSeqGen, engine.metaTtl, tx, proto)
      ensures Me() == Mine("", "", false, None, 0, map[], [], multiset{}, multiset{}, multiset{}, {}, 0)
    {
      hide Order, Ledger, Agrees, HubModel.Hub.Valid, Memory.MemoryEngine.Valid, Unpushed, NoTrace, JoinChannels, MadeOf;
      this.node, this.engine, this.tx, this.proto, this.settings := node, engine, tx, proto, settings;
      id, user, authenticated, connInfo, expireAt := "", "", false, None, 0;
      subscriptions, pendingJoins := map[], [];
      joins, leaves, surplus, unsent, next := multiset{}, multiset{}, multiset{}, {}, 0;
      new;
      NewlyAccepted(Here());
    }

    function InfoWith(chanInfo: Option<Bytes>): ClientInfo
      reads this
    {
      ClientInfo(user, id, connInfo, chanInfo)
    }

    lemma StreamHere(channel: Channel, now: int, newEpoch: Epoch)
      ensures OrFresh(engine.LiveAt(channel, now), newEpoch) == StreamIn(engine.streams, engine.history, channel, now, newEpoch)
    {
    }

    lemma SlowHere(channel: Channel)
      ensures node.Slow(channel) == There().SlowOn(channel)
    {
    }

    /** Offers a push to the channel's subscribers, this connection perhaps among
        them; `gone` are those dropped as slow. */
    method Broadcast(push: Push) returns (ghost gone: set<ClientId>)
      requires ServerValid() && Attached(node.hub.conns, id, tx)
      modifies node`queues, node`slowCloses, node.hub`conns, node.hub`users, node.hub`rel, node.hub.shards
      ensures ServerValid() && Here() == Dropped(old(Here()), gone)
      ensures PushedOut(old(There()), There(), push)
      ensures Extends(Items(), old(Items()), push) && old(Items()) <= Items()
      ensures id !in old(node.hub.conns) ==> Items() == old(Items())
    {
      hide NodeModel.Node.Valid, Memory.MemoryEngine.Valid, Attached, Delivered, Extends, NodeModel.Node.Slow;
      SlowHere(push.channel);
      gone := node.Slow(push.channel);
      node.DeliverPush(push);
      DeliveredExtends(node.queues, old(node.queues), old(Here()), push, id, tx);
    }

    /** Routes a publication the engine took. */
    method Route(channel: Channel, publication: Publication) returns (ghost gone: set<ClientId>)
      requires ServerValid() && Attached(node.hub.conns, id, tx)
      modifies node`queues, node`slowCloses, node.hub`conns, node.hub`users, node.hub`rel, node.hub.shards
      ensures ServerValid() && Here() == Dropped(old(Here()), gone)
      ensures PushedOut(old(There()), There(), LivePush(channel, publication, node.useSeqGen))
      ensures Extends(Items(), old(Items()), LivePush(channel, publication, node.useSeqGen))
      ensures id !in old(node.hub.conns) ==> Items() == old(Items())
    {
      hide NodeModel.Node.Valid, Memory.MemoryEngine.Valid, Attached, Delivered, Extends, NodeModel.Node.Slow, OnTheWire;
      SlowHere(channel);
      gone := node.Slow(channel);
      node.RoutePublication(channel, publication);
      var push := LivePush(channel, publication, node.useSeqGen);
      DeliveredExtends(node.queues, old(node.queues), old(Here()), push, id, tx);
    }

    // ---- the rest of the server ----

    /** The connection's id is one of its own, and before CONNECT none of them is known. */
    ghost predicate Ours(ours: set<ClientId>)
      reads this`id, this`authenticated, node.hub`conns, node.hub`rel, engine`present
    {
      id in ours && (!authenticated ==> NoTraces(Here(), ours))
    }

    /** What nothing from outside takes away: the connection's queue is sound and its own. */
    ghost predicate Standing()
      reads this, node, node.hub, node.hub.shards, engine
    {
      ServerValid() && Attached(node.hub.conns, id, tx) && Order(Items(), id, Pending(), unsent, next)
    }

    /** A push of someone else reaches this connection, or drops it as slow. */
    method Overhear(push: Push, ghost ours: set<ClientId>)
      requires Standing() && !(push.JoinPush? && push.info.client == id)
      modifies node`queues, node`slowCloses, node.hub`conns, node.hub`users, node.hub`rel, node.hub.shards
      ensures Standing() && AllSpared(Here(), old(Here()), ours)
      ensures old(Items()) <= Items() && (id !in old(node.hub.conns) ==> Items() == old(Items()))
      ensures PushedOut(old(There()), There(), push)
    {
      hide Delivered, Agrees, Order, Extends, NodeModel.Node.Valid, HubModel.Hub.Valid, Memory.MemoryEngine.Valid,
           Attached, JoinChannels, Dropped, AllSpared;
      ghost var gone := Broadcast(push);
      OrderExtends(Items(), old(Items()), push, id, Pending(), unsent, next);
      AgreesAfterDrops(old(Here()), id, subscriptions, gone, tx);
      SparedByDrops(old(Here()), gone, ours);
    }

    /** What another connection does for itself. */
    method OtherTurn(what: Elsewhere, ghost ours: set<ClientId>)
      requires Standing() && id in ours && Foreign(what, ours)
      requires !what.PushRouted? && !what.HistoryWritten? && !what.ControlArrives? && !what.WriterRuns? && !what.SlowCloseQueued?
      modifies engine`presence, engine`present, node`queues, node`signals, node`everRegistered, node.hub, node.hub.shards
      ensures Standing() && AllSpared(Here(), old(Here()), ours) && Items() == old(Items())
      ensures tx in node.everRegistered ==> tx in old(node.everRegistered)
      ensures Happened(Setting(), old(There()), There(), what)
    {
      hide Order, NodeModel.Node.Valid, HubModel.Hub.Valid, Memory.MemoryEngine.HistoryValid, Memory.MemoryEngine.PresenceValid;
      match what
      case OtherConnects(handle) => StrangerConnects(handle, ours);
      case OtherSubscribes(other, channel) => node.Subscribe(other, channel);
      case OtherUnsubscribes(other, channel) => node.Unsubscribe(other, channel);
      case OtherPresent(other, channel, info) => engine.AddPresence(channel, other, info);
      case OtherAbsent(other, channel) => engine.RemovePresence(channel, other);
      case OtherCloses(other) => node.Remove(other);
    }

    method StrangerConnects(handle: ClientHandle, ghost ours: set<ClientId>)
      requires Standing() && id in ours && handle.id !in ours
      modifies node`queues, node`signals, node`everRegistered, node.hub`conns, node.hub`users
      ensures Standing() && AllSpared(Here(), old(Here()), ours) && Items() == old(Items())
      ensures tx in node.everRegistered ==> tx in old(node.everRegistered)
      ensures Happened(Setting(), old(There()), There(), OtherConnects(handle))
    {
      hide Order, NodeModel.Node.Valid, HubModel.Hub.Valid, Memory.MemoryEngine.Valid;
      if handle.id !in node.hub.conns && handle.tx !in node.queues { node.Connect(handle); }
    }

    /** What goes on behind every connection. */
    method BackgroundTurn(what: Elsewhere)
      requires Standing() && (what.HistoryWritten? || what.ControlArrives? || what.WriterRuns?)
      modifies engine`history, engine`streams, node`queues, node`signals, node`registry
      ensures Standing() && Items() == old(Items())
      ensures Happened(Setting(), old(There()), There(), what)
    {
      hide Order, Attached, NodeModel.Node.Valid, HubModel.Hub.Valid, Memory.MemoryEngine.HistoryValid, Memory.MemoryEngine.PresenceValid,
           Addressed;
      match what
      case HistoryWritten(channel, entry, size, lifetime, now, epoch) =>
        var _ := engine.Publish(channel, entry, size, lifetime, now, epoch);
      case ControlArrives(cmd) => node.ApplyControl(cmd);
      case WriterRuns(writer, n, gone) => node.WriterTurn(writer, n, gone);
    }

    /** The close scheduled when this connection was found slow gets its place. */
    method SlowCloseTurn()
      requires Standing() && tx in node.slowCloses
      modifies node`queues
      ensures Standing() && old(Items()) <= Items()
      ensures old(Unpushed(Items())) ==> Unpushed(Items())
      ensures Queued(Setting(), old(There()), There(), Close(SLOW))
    {
      hide Unpushed, Order, Attached, NodeModel.Node.Valid, HubModel.Hub.Valid, Memory.MemoryEngine.Valid;
      OrderOther(Items(), Close(SLOW), id, Pending(), unsent, next);
      assert unsent - {} == unsent;
      PlainReply(Close(SLOW));
      if Unpushed(Items()) { UnpushedSnoc(Items(), Close(SLOW)); }
      var _ := node.Send(tx, Close(SLOW));
    }

    /** Whatever else happens on the server: this connection may fall out of the hub and
        its queue may grow, but never out of order. */
    method ServerTurn(what: Elsewhere, ghost ours: set<ClientId>)
      requires Standing() && id in ours && Foreign(what, ours)
      modifies engine, node, node.hub, node.hub.shards
      ensures Standing() && AllSpared(Here(), old(Here()), ours) && old(Items()) <= Items()
      ensures old(Unborn()) ==> Unborn()
      ensures Happened(Setting(), old(There()), There(), what)
    {
      hide Order, Attached, NodeModel.Node.Valid, HubModel.Hub.Valid, Memory.MemoryEngine.Valid, AllSpared, Unpushed;
      SparedAll(Here(), ours);
      if what.PushRouted? {
        Overhear(what.push, ours);
      } else if what.SlowCloseQueued? {
        if tx in node.slowCloses { SlowCloseTurn(); }
      } else if what.HistoryWritten? || what.ControlArrives? || what.WriterRuns? {
        BackgroundTurn(what);
      } else {
        OtherTurn(what, ours);
      }
      SparedOne(Here(), old(Here()), ours, id);
    }

    method ServerTurns(whats: seq<Elsewhere>, ghost ours: set<ClientId>)
      requires Standing() && id in ours && AllForeign(whats, ours)
      modifies engine, node, node.hub, node.hub.shards
      ensures Standing() && AllSpared(Here(), old(Here()), ours) && old(Items()) <= Items()
      ensures old(Unborn()) ==> Unborn()
      ensures Between(Setting(), old(There()), There(), whats)
    {
      hide Standing, AllSpared, Unborn, Happened, There;
      ghost var before := Here();
      SparedAll(before, ours);
      ghost var states := [There()];
      var i := 0;
      while i < |whats|
        invariant i <= |whats| && Standing() && AllSpared(Here(), before, ours) && old(Items()) <= Items()
        invariant old(Unborn()) ==> Unborn()
        invariant |states| == i + 1 && states[0] == old(There()) && states[i] == There()
        invariant forall k :: 0 <= k < i ==> Happened(Setting(), states[k], states[k + 1], whats[k])
      {
        ghost var middle := Here();
        ServerTurn(whats[i], ours);
        SparedOn(Here(), middle, before, ours);
        states := states + [There()];
        i := i + 1;
      }
      assert Passed(Setting(), states, whats);
    }

    /** The reader waits while others act. */
    method Yield(whats: seq<Elsewhere>, ghost ours: set<ClientId>)
      requires Valid() && Ours(ours) && AllForeign(whats, ours)
      modifies engine, node, node.hub, node.hub.shards
      ensures Valid() && Ours(ours) && old(Items()) <= Items() && Waited(Setting(), old(Now()), Now(), whats)
      ensures whats == [] ==> Now() == old(Now())
    {
      hide Agrees, Ledger, Attached, Order, NodeModel.Node.Valid, HubModel.Hub.Valid, Memory.MemoryEngine.Valid, JoinChannels,
           NoTrace, NoTraces, AllSpared, Unborn, Here, Between, There;
      if whats == [] {
        NothingBetween(Setting(), There());
        return;
      }
      ServerTurns(whats, ours);
      SparedOne(Here(), old(Here()), ours, id);
      SparedAgrees(Here(), old(Here()), id, subscriptions);
      if !authenticated { SparedNoTraces(Here(), old(Here()), ours); }
    }

    /** Queues an item of the connection's own; fails only if the writer is gone. */
    method Send(item: Out<WireFrame>) returns (sent: bool)
      requires Valid() && SelfJoin(item, id) == None && ReportedIn(item) <= unsent
      requires authenticated || (item.Frame? ==> item.frame.body.Replies?)
      modifies node`queues, this`unsent
      ensures Valid() && sent == !old(There().WriterGone(tx))
      ensures Queued(Setting(), old(There()), There(), item)
      ensures unsent == if sent then old(unsent) - ReportedIn(item) else old(unsent)
    {
      hide Delivered, Order, Ledger, Agrees, NodeModel.Node.Valid, HubModel.Hub.Valid, Memory.MemoryEngine.Valid,
           Attached, JoinChannels, NoTrace,
           Unpushed, SelfJoin, ReportedIn, Plain;
      OrderOther(Items(), item, id, Pending(), unsent, next);
      if !authenticated {
        PlainReply(item);
        UnpushedSnoc(Items(), item);
      }
      sent := node.Send(tx, item);
      if sent { unsent := unsent - ReportedIn(item); }
    }

    /** The reader is gone, and its control queue with it. */
    method CloseReader()
      requires ServerValid()
      modifies node`signals
      ensures ServerValid() && node.signals[tx].closed && There() == old(There()).(signals := node.signals)
    {
      hide NodeModel.Node.Valid;
      node.CloseReader(tx);
    }

    method NextSignal() returns (signal: Option<Signal>)
      requires Valid()
      modifies node`signals
      ensures Valid()
      ensures match signal
              case None => Waiting(Setting(), old(There())) == [] && Now() == old(Now())
              case Some(s) =>
                && Taken(Setting(), old(There()), There()) && Me() == old(Me())
                && s == Waiting(Setting(), old(There()))[0]
    {
      hide Order, Ledger, Agrees, NodeModel.Node.Valid, HubModel.Hub.Valid, Memory.MemoryEngine.Valid, Attached, JoinChannels, NoTrace,
           Unpushed;
      signal := node.TakeSignal(tx);
    }

    /** One frame with the replies of a whole batch. */
    method SendReplies(replies: seq<Reply>) returns (sent: bool)
      requires Valid() && unsent == ReportedByAll(replies)
      modifies node`queues, this`unsent
      ensures Valid() && sent == !old(There().WriterGone(tx))
      ensures Queued(Setting(), old(There()), There(), Frame(WireFrame(proto, Replies(replies))))
      ensures unsent == if sent then {} else old(unsent)
    {
      hide Owing, Unborn, ReportedByAll, Queued;
      sent := Send(Frame(WireFrame(proto, Replies(replies))));
    }

    method SendClose(d: Disconnect)
      requires Valid()
      modifies node`queues, this`unsent
      ensures Valid() && Me() == old(Me()) && Queued(Setting(), old(There()), There(), Close(d))
    {
      hide Owing, Unborn, Queued;
      assert unsent - {} == unsent;
      var _ := Send(Close(d));
    }

    // ---- leaving a channel ----

    method UnsubscribeChannel(channel: Channel)
      requires Valid()
      modifies this`subscriptions, this`leaves, engine`presence, engine`present,
               node`queues, node`slowCloses, node.hub`conns, node.hub`users, node.hub`rel, node.hub.shards
      ensures Valid() && Kept(Here(), old(Here()), id)
      ensures subscriptions == old(subscriptions) - {channel}
      ensures LeftChannel(old(Now()), Now(), channel)
    {
      hide Delivered, Valid, Kept, Once, NodeModel.Node.Valid, HubModel.Hub.Valid, Memory.MemoryEngine.Valid;
      if channel in subscriptions {
        DropSubscription(channel);
      } else {
        KeptAll(Here(), id);
        assert subscriptions - {channel} == subscriptions;
      }
    }

    /** Drops a subscription: presence and Leave first, so that the leaving client
        still gets its own Leave, then the hub. */
    method DropSubscription(channel: Channel)
      requires Valid() && channel in subscriptions
      modifies this`subscriptions, this`leaves, engine`presence, engine`present,
               node`queues, node`slowCloses, node.hub`conns, node.hub`users, node.hub`rel, node.hub.shards
      ensures Valid() && Kept(Here(), old(Here()), id)
      ensures subscriptions == old(subscriptions) - {channel}
      ensures LeftChannel(old(Now()), Now(), channel)
    {
      hide Delivered, Agrees, Order, Ledger, Once, NodeModel.Node.Valid, HubModel.Hub.Valid, Memory.MemoryEngine.HistoryValid,
           Memory.MemoryEngine.PresenceValid, NoTrace, Attached, Dropped, Absent, JoinChannels, Kept, LeavePublished;
      var state := subscriptions[channel];
      LedgerLeave(joins, JoinChannels(Pending()), leaves, subscriptions, surplus, channel);
      ghost var gone := PublishLeave(channel, state);
      subscriptions := subscriptions - {channel};
      ghost var middle := There();
      node.Unsubscribe(id, channel);
      AgreesLeave(old(Here()), id, old(subscriptions), channel, gone);
      assert LeavePublished(old(There()), middle, old(Me()), channel, state);
    }

    method LeavePresence(channel: Channel, was: bool)
      requires ServerValid()
      modifies engine`presence, engine`present
      ensures ServerValid() && Here() == Absent(old(Here()), id, channel, was)
      ensures if was then PresenceGone(engine.presence, old(engine.presence), channel, id) else engine.presence == old(engine.presence)
    {
      if was { engine.RemovePresence(channel, id); }
    }

    /** Presence off, then the Leave. */
    method PublishLeave(channel: Channel, state: SubState) returns (ghost gone: set<ClientId>)
      requires ServerValid() && Attached(node.hub.conns, id, tx) && Order(Items(), id, Pending(), unsent, next)
      modifies this`leaves, engine`presence, engine`present,
               node`queues, node`slowCloses, node.hub`conns, node.hub`users, node.hub`rel, node.hub.shards
      ensures ServerValid() && Attached(node.hub.conns, id, tx) && Order(Items(), id, Pending(), unsent, next)
      ensures Here() == Dropped(Absent(old(Here()), id, channel, state.presence), gone)
      ensures leaves == old(leaves) + Once(channel, state.joinLeave) && old(Items()) <= Items()
      ensures LeavePublished(old(There()), There(), old(Me()), channel, state)
    {
      hide Attached, Order, Extends, NodeModel.Node.Valid, HubModel.Hub.Valid, JoinChannels, PushedOut,
           Memory.MemoryEngine.HistoryValid, Memory.MemoryEngine.PresenceValid;
      LeavePresence(channel, state.presence);
      gone := {};
      ghost var absent := Here();
      OneMoreWithout(node.hub.rel, {}, "");
      if state.joinLeave {
        gone := BroadcastLeave(channel, state);
        leaves := leaves + multiset{channel};
      }
      AgreesAfterDrops(absent, id, subscriptions, gone, tx);
    }

    method BroadcastLeave(channel: Channel, state: SubState) returns (ghost gone: set<ClientId>)
      requires ServerValid() && Attached(node.hub.conns, id, tx) && Order(Items(), id, Pending(), unsent, next)
      modifies node`queues, node`slowCloses, node.hub`conns, node.hub`users, node.hub`rel, node.hub.shards
      ensures ServerValid() && Order(Items(), id, Pending(), unsent, next)
      ensures Here() == Dropped(old(Here()), gone) && old(Items()) <= Items()
      ensures PushedOut(old(There()), There(), LeavePush(channel, ClientInfo(user, id, connInfo, state.chanInfo)))
    {
      hide Attached, Order, Extends, NodeModel.Node.Valid, HubModel.Hub.Valid, JoinChannels, PushedOut, Memory.MemoryEngine.Valid;
      var push := LeavePush(channel, InfoWith(state.chanInfo));
      gone := Broadcast(push);
      OrderExtends(Items(), old(Items()), push, id, Pending(), unsent, next);
    }

    method OnUnsubscribe(cmd: nat, channel: Channel) returns (out: Outcome)
      requires Valid()
      modifies this`subscriptions, this`leaves, engine`presence, engine`present,
               node`queues, node`slowCloses, node.hub`conns, node.hub`users, node.hub`rel, node.hub.shards
      ensures Valid() && Kept(Here(), old(Here()), id)
      ensures ReportedByAll(out.replies) == {}
      ensures UnsubscribeDone(old(Now()), Now(), out, cmd, channel) && AnswersOnly(out, cmd)
      ensures channel != [] ==> subscriptions == old(subscriptions) - {channel}
      ensures channel == [] ==> subscriptions == old(subscriptions)
    {
      hide Delivered, Valid, Kept, NodeModel.Node.Valid, HubModel.Hub.Valid, Memory.MemoryEngine.Valid;
      if channel == [] {
        KeptAll(Here(), id);
        return Closing(BAD_REQUEST);
      }
      UnsubscribeChannel(channel);
      out := Replied(cmd, OkReply);
      ReportedByOne(out.replies[0]);
    }

    /** The server takes the client out of a channel and tells it so. */
    method ServerUnsubscribe(channel: Channel)
      requires Valid()
      modifies this`subscriptions, this`leaves, this`unsent, engine`presence, engine`present,
               node`queues, node`slowCloses, node.hub`conns, node.hub`users, node.hub`rel, node.hub.shards
      ensures Valid() && Kept(Here(), old(Here()), id) && unsent == old(unsent)
      ensures subscriptions == old(subscriptions) - {channel}
      ensures ToldOut(Setting(), old(Now()), Now(), channel)
    {
      hide Delivered, Owing, Kept, NoTrace, Unpushed, Once, LeftChannel, Here;
      if channel !in subscriptions {
        KeptAll(Here(), id);
        assert subscriptions - {channel} == subscriptions;
        return;
      }
      UnsubscribeChannel(channel);
      ghost var middle := Now();
      TellUnsubscribed(channel);
      assert LeftChannel(old(Now()), middle, channel);
    }

    method TellUnsubscribed(channel: Channel)
      requires Valid() && authenticated
      modifies node`queues, this`unsent
      ensures Valid() && Me() == old(Me())
      ensures Queued(Setting(), old(There()), There(), Frame(WireFrame(proto, Pushed(UnsubPush(channel)))))
    {
      hide Owing, Unborn, Queued;
      assert unsent - {} == unsent;
      var _ := Send(Frame(WireFrame(proto, Pushed(UnsubPush(channel)))));
    }

    /** An unsubscribe signal; the empty channel means every channel. */
    method OnUnsubscribeSignal(channel: Channel, meanwhile: Meanwhile, ghost ours: set<ClientId>)
      requires Valid() && Ours(ours) && Undisturbing(meanwhile, ours)
      modifies this`subscriptions, this`leaves, this`unsent, engine, node, node.hub, node.hub.shards
      ensures Valid() && Ours(ours) && unsent == old(unsent)
      ensures SignalledOut(Setting(), old(Now()), Now(), channel, meanwhile)
      ensures subscriptions == if channel == [] then map[] else old(subscriptions) - {channel}
    {
      if channel != [] {
        UnsubscribeBySignal(channel, ours);
      } else {
        UnsubscribeAll(meanwhile, ours);
      }
    }

    method UnsubscribeBySignal(channel: Channel, ghost ours: set<ClientId>)
      requires Valid() && Ours(ours)
      modifies this`subscriptions, this`leaves, this`unsent, engine, node, node.hub, node.hub.shards
      ensures Valid() && Ours(ours) && unsent == old(unsent) && subscriptions == old(subscriptions) - {channel}
      ensures ToldOut(Setting(), old(Now()), Now(), channel)
    {
      hide Owing, Kept, NoTraces, Unpushed, NoTrace, Here;
      ServerUnsubscribe(channel);
    }

    method UnsubscribeAll(meanwhile: Meanwhile, ghost ours: set<ClientId>)
      requires Valid() && Ours(ours) && Undisturbing(meanwhile, ours)
      modifies this`subscriptions, this`leaves, this`unsent, engine, node, node.hub, node.hub.shards
      ensures Valid() && Ours(ours) && unsent == old(unsent) && subscriptions == map[]
      ensures SignalledOut(Setting(), old(Now()), Now(), [], meanwhile)
    {
      hide Valid, Ours, ToldInTurn, ToldOut, Waited, There;
      var all := subscriptions.Keys;
      assert Now().me.subs.Keys == all;
      hide Me;
      var left := all;
      var k := 0;
      ghost var parts: seq<Part>, channels: seq<Channel> := [], [];
      NoneTold(Setting(), Now(), meanwhile);
      assert all - left == {};
      while left != {}
        invariant Valid() && Ours(ours) && unsent == old(unsent) && subscriptions.Keys == left <= all && k == |parts|
        invariant ToldInTurn(Setting(), parts, channels, all - left, old(Now()), Now(), meanwhile)
        decreases |left|
      {
        var c :| c in left;
        ghost var part := UnsubscribeOne(c, AtPoint(meanwhile, k), ours);
        OneMoreTold(Setting(), parts, channels, all - left, old(Now()), meanwhile, part, c);
        assert all - (left - {c}) == all - left + {c};
        parts, channels, left, k := parts + [part], channels + [c], left - {c}, k + 1;
      }
      assert all - left == all;
    }

    method UnsubscribeOne(channel: Channel, whats: seq<Elsewhere>, ghost ours: set<ClientId>) returns (ghost part: Part)
      requires Valid() && Ours(ours) && AllForeign(whats, ours) && channel in subscriptions
      modifies this`subscriptions, this`leaves, this`unsent, engine, node, node.hub, node.hub.shards
      ensures Valid() && Ours(ours) && unsent == old(unsent) && subscriptions == old(subscriptions) - {channel}
      ensures part.b == old(Now()) && part.a == Now() && Waited(Setting(), part.b, part.mid, whats)
      ensures ToldOut(Setting(), part.mid, part.a, channel)
    {
      hide Valid, Ours, ToldOut, Between, There;
      ghost var before := Now();
      Yield(whats, ours);
      ghost var middle := Now();
      UnsubscribeBySignal(channel, ours);
      part := Part(before, middle, Now());
    }

    /** Publishes the deferred Joins, once the replies they belong to are queued. Others
        act before each of them. */
    method FlushPendingJoins(meanwhile: Meanwhile, ghost ours: set<ClientId>)
      requires Valid() && unsent == {} && Ours(ours) && Undisturbing(meanwhile, ours)
      modifies this`pendingJoins, this`joins, engine, node, node.hub, node.hub.shards
      ensures Valid() && Ours(ours) && pendingJoins == [] && joins == old(joins) + JoinChannels(old(Pending()))
      ensures old(Items()) <= Items() && Flushed(Setting(), old(Now()), Now(), meanwhile)
    {
      hide Valid, Ours, JoinChannels, JoinedInTurn, Joined, Waited, There;
      ghost var all := pendingJoins;
      assert Now().me.pending == all;
      hide Me;
      ghost var parts: seq<Part> := [];
      NoneJoined(Setting(), Now(), meanwhile);
      var k := 0;
      while pendingJoins != []
        invariant Valid() && Ours(ours) && unsent == {}
        invariant joins + JoinChannels(Pending()) == old(joins) + JoinChannels(old(Pending()))
        invariant old(Items()) <= Items()
        invariant k == |parts| <= |all| && pendingJoins == all[k..]
        invariant JoinedInTurn(Setting(), parts, all[..k], old(Now()), Now(), meanwhile)
        decreases |pendingJoins|
      {
        ghost var part := JoinAfter(AtPoint(meanwhile, k), ours);
        OneMoreJoined(Setting(), parts, all[..k], old(Now()), meanwhile, part, all[k]);
        assert all[..k + 1] == all[..k] + [all[k]];
        parts, k := parts + [part], k + 1;
      }
      assert all[..k] == all;
      NothingDeferred();
    }

    method JoinAfter(whats: seq<Elsewhere>, ghost ours: set<ClientId>) returns (ghost part: Part)
      requires Valid() && unsent == {} && pendingJoins != [] && Ours(ours) && AllForeign(whats, ours)
      modifies this`pendingJoins, this`joins, engine, node, node.hub, node.hub.shards
      ensures Valid() && Ours(ours) && pendingJoins == old(pendingJoins)[1..] && old(Items()) <= Items()
      ensures joins + JoinChannels(Pending()) == old(joins) + JoinChannels(old(Pending()))
      ensures part.b == old(Now()) && part.a == Now() && Waited(Setting(), part.b, part.mid, whats)
      ensures Joined(part.mid, part.a, old(pendingJoins)[0])
    {
      hide Valid, Ours, JoinChannels, Joined, Between, There;
      ghost var before := Now();
      Yield(whats, ours);
      ghost var middle := Now();
      PublishNextJoin(ours);
      part := Part(before, middle, Now());
    }

    method PublishNextJoin(ghost ours: set<ClientId>)
      requires Valid() && unsent == {} && pendingJoins != [] && Ours(ours)
      modifies this`pendingJoins, this`joins, node`queues, node`slowCloses,
               node.hub`conns, node.hub`users, node.hub`rel, node.hub.shards
      ensures Valid() && Ours(ours) && pendingJoins == old(pendingJoins)[1..]
      ensures joins + JoinChannels(Pending()) == old(joins) + JoinChannels(old(Pending()))
      ensures Kept(Here(), old(Here()), id) && old(Items()) <= Items()
      ensures Joined(old(Now()), Now(), old(pendingJoins)[0])
    {
      hide Agrees, Order, Ledger, ServerValid, NoTrace, Attached, Dropped, Kept, JoinChannels, MadeOf, NoTraces, PushedOut, There;
      var d := pendingJoins[0];
      assert authenticated;
      hide Unborn;
      ghost var gone := OfferJoin(d);
      AgreesAfterDrops(old(Here()), id, subscriptions, gone, tx);
      BookJoin(d);
    }

    /** The Join is no longer owed but published. */
    method BookJoin(d: Deferred)
      requires authenticated && pendingJoins != [] && d == pendingJoins[0]
      requires ServerValid() && Attached(node.hub.conns, id, tx) && Agrees(Here(), id, subscriptions)
      requires Ledger(joins, JoinChannels(Pending()), leaves, subscriptions, surplus)
      requires Order(Items(), id, MadeOf(pendingJoins[1..]), unsent, next)
      modifies this`pendingJoins, this`joins
      ensures Valid() && Me() == old(Me()).(pending := old(pendingJoins)[1..], joins := old(joins) + multiset{d.channel})
      ensures joins + JoinChannels(Pending()) == old(joins) + JoinChannels(old(Pending()))
    {
      hide Agrees, Order, Ledger, ServerValid, Attached, JoinChannels, MadeOf, Unborn;
      FirstDeferred(pendingJoins);
      pendingJoins := pendingJoins[1..];
      LedgerFlush(joins, JoinChannels(Pending()), leaves, subscriptions, surplus, d.channel);
      joins := joins + multiset{d.channel};
    }

    /** Offers the Join of the first subscription that still owes one. */
    method OfferJoin(d: Deferred) returns (ghost gone: set<ClientId>)
      requires ServerValid() && Attached(node.hub.conns, id, tx) && pendingJoins != [] && pendingJoins[0] == d
      requires unsent == {} && Order(Items(), id, Pending(), unsent, next)
      modifies node`queues, node`slowCloses, node.hub`conns, node.hub`users, node.hub`rel, node.hub.shards
      ensures ServerValid() && Here() == Dropped(old(Here()), gone) && old(Items()) <= Items()
      ensures Order(Items(), id, MadeOf(pendingJoins[1..]), unsent, next)
      ensures PushedOut(old(There()), There(), JoinPush(d.channel, d.info, d.serial))
    {
      hide Order, Attached, Extends, NodeModel.Node.Valid, HubModel.Hub.Valid, JoinChannels, MadeOf, PushedOut, Memory.MemoryEngine.Valid;
      FirstDeferred(pendingJoins);
      var push := JoinPush(d.channel, d.info, d.serial);
      gone := Broadcast(push);
      OrderJoins(Items(), old(Items()), push, id, MadeOf(pendingJoins[1..]), next);
    }

    // ---- entering a channel ----

    /** The hub first, then presence. */
    method EnterServer(channel: Channel, presence: bool, info: ClientInfo)
      requires ServerValid()
      modifies engine`presence, engine`present, node.hub`rel, node.hub.shards
      ensures ServerValid() && Here() == Entered(old(Here()), id, channel, presence)
      ensures if presence then PresenceSet(engine.presence, old(engine.presence), channel, id, info)
              else engine.presence == old(engine.presence)
    {
      hide PresenceSet, NodeModel.Node.Valid, HubModel.Hub.Valid, Memory.MemoryEngine.HistoryValid, Memory.MemoryEngine.PresenceValid;
      node.Subscribe(id, channel);
      if presence {
        engine.AddPresence(channel, id, info);
      }
    }

    /** Enters the channel and records the subscription. Its Join is still owed. */
    method Enter(channel: Channel, state: SubState, info: ClientInfo)
      requires Valid() && authenticated
      requires channel in subscriptions ==>
                 subscriptions[channel].presence == state.presence && subscriptions[channel].joinLeave == state.joinLeave
      modifies this`subscriptions, this`unsent, this`next, this`surplus, engine`presence, engine`present, node.hub`rel, node.hub.shards
      ensures Owing(OneMore(Pending(), (old(next), channel), state.joinLeave))
      ensures Here() == Entered(old(Here()), id, channel, state.presence)
      ensures Kept(Here(), old(Here()), id)
      ensures subscriptions == old(subscriptions)[channel := state]
      ensures if state.presence then PresenceSet(engine.presence, old(engine.presence), channel, id, info)
              else engine.presence == old(engine.presence)
      ensures unsent == old(unsent) + {(old(next), channel)} && next == old(next) + 1
      ensures surplus == old(surplus) + Once(channel, state.joinLeave && channel in old(subscriptions))
    {
      hide Delivered, Agrees, Ledger, NodeModel.Node.Valid, HubModel.Hub.Valid, Memory.MemoryEngine.Valid,
           NoTrace, Attached, JoinChannels, Kept, Order, Once, Entered, PresenceSet, OneMore, MadeOf;
      AgreesEnter(Here(), id, subscriptions, channel, state);
      EnterServer(channel, state.presence, info);
      Record(channel, state);
    }

    /** The subscription on the connection's own books. */
    method Record(channel: Channel, state: SubState)
      requires ServerValid() && Attached(node.hub.conns, id, tx) && Agrees(Here(), id, subscriptions[channel := state])
      requires Ledger(joins, JoinChannels(Pending()), leaves, subscriptions, surplus) && Order(Items(), id, Pending(), unsent, next)
      requires channel in subscriptions ==> subscriptions[channel].joinLeave == state.joinLeave
      modifies this`subscriptions, this`unsent, this`next, this`surplus
      ensures Owing(OneMore(Pending(), (old(next), channel), state.joinLeave))
      ensures subscriptions == old(subscriptions)[channel := state]
      ensures unsent == old(unsent) + {(old(next), channel)} && next == old(next) + 1
      ensures surplus == old(surplus) + Once(channel, state.joinLeave && channel in old(subscriptions))
    {
      hide Delivered, Agrees, Ledger, NodeModel.Node.Valid, HubModel.Hub.Valid, Memory.MemoryEngine.Valid,
           Attached, JoinChannels, Order, Once, OneMore, MadeOf, ServerValid, Unborn;
      BookSubscription(Items(), id, Pending(), unsent, next, joins, leaves, subscriptions, surplus, channel, state);
      surplus := surplus + Once(channel, state.joinLeave && channel in subscriptions);
      unsent, next := unsent + {(next, channel)}, next + 1;
      subscriptions := subscriptions[channel := state];
    }

    /** Puts the owed Join off until the reply is out. */
    method DeferJoin(channel: Channel, info: ClientInfo, announces: bool, ghost serial: nat)
      requires authenticated && Owing(OneMore(Pending(), (serial, channel), announces))
      modifies this`pendingJoins
      ensures Valid() && pendingJoins == WithDeferred(old(pendingJoins), announces, Deferred(channel, info, serial))
      ensures Me() == old(Me()).(pending := pendingJoins)
    {
      hide Delivered, Agrees, Ledger, NodeModel.Node.Valid, HubModel.Hub.Valid, Memory.MemoryEngine.HistoryValid,
           Memory.MemoryEngine.PresenceValid, NoTrace, Attached, JoinChannels, Order;
      if announces {
        DeferredSnoc(pendingJoins, Deferred(channel, info, serial));
        pendingJoins := pendingJoins + [Deferred(channel, info, serial)];
      }
    }

    /** The channel's current position, as a baseline to recover from later. */
    method Baseline(channel: Channel, now: int, newEpoch: Epoch, ghost pending: seq<Made>) returns (result: SubscribeResult)
      requires Owing(pending)
      modifies engine`history, engine`streams
      ensures Owing(pending) && channel in engine.streams
      ensures StreamRead(engine.streams, engine.history, old(engine.streams), old(engine.history), channel, now, newEpoch)
      ensures result == BaselineOf(engine.streams[channel], node.useSeqGen)
    {
      hide Delivered, Order, Ledger, Agrees, Attached, NodeModel.Node.Valid, HubModel.Hub.Valid,
           Memory.Represents, Memory.MemoryEngine.PresenceValid;
      var _, top := engine.History(channel, now, newEpoch);
      result := SubscribeResult(true, false, top.epoch, EncodePosition(top.offset % TWO_64, node.useSeqGen), []);
    }

    /** The recovery part of a SUBSCRIBE. */
    method Recover(req: SubscribeRequest, now: int, newEpoch: Epoch, ghost pending: seq<Made>) returns (result: SubscribeResult)
      requires Owing(pending)
      modifies engine`history, engine`streams
      ensures Owing(pending)
      ensures RecoveryReported(engine.streams, engine.history, old(engine.streams), old(engine.history), result, req,
                               node.useSeqGen, now, newEpoch)
    {
      hide Delivered, Order, Ledger, Agrees, Attached, NodeModel.Node.Valid, HubModel.Hub.Valid,
           Memory.MemoryEngine.PresenceValid, Answers, Recovered,
           InOrder, InRange, BaselineOf, MemoryEngine.LiveAt, OrFresh, StreamIn;
      StreamHere(req.channel, now, newEpoch);
      if req.recover {
        var asked := RequestedOffset(req.position);
        var answer, top := engine.HistorySince(req.channel, asked, req.epoch, now, newEpoch);
        result := RecoverResult(answer, top, asked, req.epoch, node.useSeqGen);
        if top.offset < TWO_64 { AnswersRecovered(result, engine.streams[req.channel], req, node.useSeqGen, answer); }
      } else {
        result := Baseline(req.channel, now, newEpoch, pending);
        ghost var s := engine.streams[req.channel];
        if |s.log| < TWO_64 { AnswersBaseline(s, req, node.useSeqGen); }
      }
    }

    /** Lets a client into a channel, and reports what the stream still has. */
    method Establish(req: SubscribeRequest, state: SubState, now: int, newEpoch: Epoch) returns (result: SubscribeResult)
      requires Valid() && authenticated && req.channel !in subscriptions
      modifies this`subscriptions, this`unsent, this`next, this`surplus, this`pendingJoins, engine, node.hub`rel, node.hub.shards
      ensures Valid() && Kept(Here(), old(Here()), id)
      ensures unsent == old(unsent) + {(old(next), req.channel)} && next == old(next) + 1 && surplus == old(surplus)
      ensures subscriptions == old(subscriptions)[req.channel := state]
      ensures LetIn(Setting(), old(Now()), Now(), state, result, req, now, newEpoch)
    {
      hide Valid, Owing, JoinChannels, Kept, Welcomed, WithDeferred, OneMore, Pending, There;
      ghost var serial := next;
      result := EnterReporting(req, state, now, newEpoch);
      DeferJoin(req.channel, InfoWith(state.chanInfo), state.joinLeave, serial);
    }

    method EnterReporting(req: SubscribeRequest, state: SubState, now: int, newEpoch: Epoch) returns (result: SubscribeResult)
      requires Valid() && authenticated && req.channel !in subscriptions
      modifies this`subscriptions, this`unsent, this`next, this`surplus, engine, node.hub`rel, node.hub.shards
      ensures Owing(OneMore(Pending(), (old(next), req.channel), state.joinLeave)) && Kept(Here(), old(Here()), id)
      ensures unsent == old(unsent) + {(old(next), req.channel)} && next == old(next) + 1 && surplus == old(surplus)
      ensures subscriptions == old(subscriptions)[req.channel := state]
      ensures Welcomed(Setting(), old(There()), There(), InfoWith(state.chanInfo), state, result, req, now, newEpoch)
    {
      hide Valid, Owing, JoinChannels, Kept, RecoveryReported, Once, Entered, OneMore, Pending;
      OnceOfNone(req.channel);
      ghost var serial := next;
      Enter(req.channel, state, InfoWith(state.chanInfo));
      result := NOT_RECOVERABLE;
      if state.recoverable {
        result := Recover(req, now, newEpoch, OneMore(Pending(), (serial, req.channel), state.joinLeave));
      }
    }

    /** SUBSCRIBE. A refusal changes nothing; a success enters the channel, owes its
        Join and reports exactly what the stream still has. */
    method OnSubscribe(cmd: nat, req: SubscribeRequest, now: int, newEpoch: Epoch) returns (out: Outcome)
      requires Valid() && authenticated
      modifies this`subscriptions, this`unsent, this`next, this`surplus, this`pendingJoins, engine, node.hub`rel, node.hub.shards
      ensures Valid() && Kept(Here(), old(Here()), id)
      ensures unsent == old(unsent) + ReportedByAll(out.replies) && surplus == old(surplus)
      ensures SubscribeDone(Setting(), old(Now()), Now(), out, cmd, req, now, newEpoch) && AnswersOnly(out, cmd)
      ensures subscriptions.Keys ==
              old(subscriptions).Keys + if old(Entitled(settings, req, id, user, subscriptions)) then {req.channel} else {}
    {
      hide Owing, Admit, Kept, LetIn, ReportedByAll, Entitled, StateGranted, RefusedWith, Unborn, Here;
      AdmitExactly(settings, cmd, req, id, user, subscriptions);
      match Admit(settings, cmd, req, id, user, subscriptions)
      case Refused(refusal) =>
        KeptAll(Here(), id);
        out := refusal;
      case Granted(state) =>
        OpenIsNew(settings, req, id, user, subscriptions);
        ghost var serial := next;
        var result := Establish(req, state, now, newEpoch);
        out := Replied(cmd, SubscribeReply(req.channel, result, serial));
        ReportedByOne(out.replies[0]);
    }

    // ---- CONNECT ----

    /** One server-side subscription of a CONNECT, with a position to recover from. */
    method ServerSideSubscribe(channel: Channel, now: int, newEpoch: Epoch) returns (result: SubscribeResult)
      requires Valid() && authenticated && Known(settings, channel)
      requires channel in subscriptions ==> subscriptions[channel] == ServerSideState(settings, channel)
      modifies this`subscriptions, this`unsent, this`next, this`surplus, this`pendingJoins, engine, node.hub`rel, node.hub.shards
      ensures Valid() && Kept(Here(), old(Here()), id)
      ensures SideEntered(Setting(), old(Now()), Now(), channel, now, newEpoch)
      ensures subscriptions == old(subscriptions)[channel := ServerSideState(settings, channel)]
      ensures ReportsAtConnect(settings, result, channel, engine.streams, node.useSeqGen)
    {
      hide Valid, Owing, JoinChannels, Kept, Once, SideAdmitted, OneMore, Pending, WithDeferred, There, Here;
      var state := ServerSideState(settings, channel);
      ghost var me := Me();
      assert me.subs == subscriptions && me.pending == pendingJoins && me.next == next && me.id == id;
      ghost var serial := next;
      result := EnterWithBaseline(channel, state, now, newEpoch);
      DeferJoin(channel, InfoWith(None), state.joinLeave, serial);
    }

    method EnterWithBaseline(channel: Channel, state: SubState, now: int, newEpoch: Epoch) returns (result: SubscribeResult)
      requires Valid() && authenticated && (channel in subscriptions ==> subscriptions[channel] == state)
      modifies this`subscriptions, this`unsent, this`next, this`surplus, engine, node.hub`rel, node.hub.shards
      ensures Owing(OneMore(Pending(), (old(next), channel), state.joinLeave)) && Kept(Here(), old(Here()), id)
      ensures unsent == old(unsent) + {(old(next), channel)} && next == old(next) + 1
      ensures surplus == old(surplus) + Once(channel, state.joinLeave && channel in old(subscriptions))
      ensures subscriptions == old(subscriptions)[channel := state]
      ensures SideAdmitted(old(There()), There(), channel, InfoWith(None), state, now, newEpoch)
      ensures if state.recoverable then channel in engine.streams && result == BaselineOf(engine.streams[channel], node.useSeqGen)
              else result == NOT_RECOVERABLE
    {
      hide Valid, Owing, JoinChannels, Kept, Once, StreamRead, OneMore, Pending, PresenceSet, Entered;
      ghost var serial := next;
      Enter(channel, state, InfoWith(None));
      result := NOT_RECOVERABLE;
      if state.recoverable {
        result := Baseline(channel, now, newEpoch, OneMore(Pending(), (serial, channel), state.joinLeave));
      }
    }

    /** The subscriptions made so far by a CONNECT, and what it will report of them. */
    ghost predicate Connected(channels: seq<Channel>, subs: map<Channel, SubscribeResult>)
      reads this, engine`streams
    {
      && AllKnown(settings, channels) && (forall ch :: ch in subs <==> ch in channels)
      && ReportsAll(settings, subs, engine.streams, node.useSeqGen)
      && (forall m :: m in unsent ==> m.1 in subs)
      && surplus == Repeats(settings, channels) && subscriptions == ServerSide(settings, channels)
    }

    method SubscribeNext(ghost made: seq<Channel>, subs0: map<Channel, SubscribeResult>, channel: Channel, now: int, newEpoch: Epoch)
      returns (subs: map<Channel, SubscribeResult>)
      requires Valid() && authenticated && Connected(made, subs0) && Known(settings, channel)
      modifies this`subscriptions, this`unsent, this`next, this`surplus, this`pendingJoins, engine, node.hub`rel, node.hub.shards
      ensures Valid() && Kept(Here(), old(Here()), id) && Connected(made + [channel], subs)
      ensures SideEntered(Setting(), old(Now()), Now(), channel, now, newEpoch)
    {
      hide Valid, Kept, JoinChannels, Once, InChannel, Repeats, ReportsAtConnect, ReportsAll, BaselineOf;
      OneMoreChannel(settings, made, channel);
      var result := ServerSideSubscribe(channel, now, newEpoch);
      OneMoreReport(settings, subs0, channel, result, old(engine.streams), engine.streams, node.useSeqGen);
      subs := subs0[channel := result];
    }

    /** The subscriptions of a CONNECT, in order. */
    method SubscribeAll(channels: seq<Channel>, now: int, newEpoch: Channel -> Epoch) returns (subs: map<Channel, SubscribeResult>)
      requires Valid() && authenticated && subscriptions == map[] && surplus == multiset{} && unsent == {} && AllKnown(settings, channels)
      modifies this`subscriptions, this`unsent, this`next, this`surplus, this`pendingJoins, engine, node.hub`rel, node.hub.shards
      ensures Valid() && Kept(Here(), old(Here()), id) && Connected(channels, subs)
      ensures SideSubscribed(Setting(), old(Now()), Now(), channels, now, newEpoch)
    {
      hide Owing, Kept, Unborn, Repeats, ReportsAtConnect, SideSubscribed, SideEntered, There, Me;
      subs := map[];
      NoneSide(Setting(), Now(), now, newEpoch);
      ghost var before := Here();
      KeptAll(before, id);
      NothingConnected(settings);
      var i := 0;
      while i < |channels|
        invariant i <= |channels| && Valid() && Kept(Here(), before, id) && Connected(channels[..i], subs)
        invariant SideSubscribed(Setting(), old(Now()), Now(), channels[..i], now, newEpoch)
      {
        hide Valid, Connected;
        ghost var middle, step := Here(), Now();
        subs := SubscribeNext(channels[..i], subs, channels[i], now, newEpoch(channels[i]));
        KeptOn(Here(), middle, before, id);
        OneMoreSide(Setting(), old(Now()), step, Now(), channels[..i], channels[i], now, newEpoch);
        assert channels[..i + 1] == channels[..i] + [channels[i]];
        i := i + 1;
      }
      assert channels[..i] == channels;
    }

    /** Puts a connection whose identity is settled into the hub. */
    method RegisterSelf()
      requires Owing(Pending()) && Unborn() && authenticated
      modifies node`everRegistered, node.hub`conns, node.hub`users
      ensures Valid() && Kept(Here(), old(Here()), id)
      ensures There() == Registered(Setting(), old(There()), Me())
    {
      hide Order, HubModel.Hub.Valid, Memory.MemoryEngine.Valid, Ledger;
      node.Register(ClientHandle(id, user, proto, tx, true));
    }

    /** CONNECT as the first command: an identity or a refusal, known channels only,
        the connection limit of the user, then the registration and the server-side
        subscriptions. */
    method OnConnect(cmd: nat, identity: Identity, newId: ClientId, now: int, newEpoch: Channel -> Epoch) returns (out: Outcome)
      requires Valid() && (!authenticated ==> NoTrace(Here(), newId))
      modifies this, engine, node`everRegistered, node.hub, node.hub.shards
      ensures Valid() && Kept(Here(), old(Here()), id)
      ensures unsent == old(unsent) + ReportedByAll(out.replies)
      ensures if old(authenticated) then out == Closing(BAD_REQUEST) && Now() == old(Now())
              else ConnectDone(Setting(), old(Now()), Now(), out, cmd, identity, newId, now, newEpoch)
      ensures AnswersOnly(out, cmd) && joins == old(joins) && (!authenticated ==> Here() == old(Here()))
      ensures surplus == old(surplus) || surplus == Extra(settings, Command(cmd, ConnectCmd(identity, newId)))
      ensures id == if old(authenticated) then old(id) else newId
    {
      hide Owing, Kept, ReportedByAll, Resolve, ConnectChannels, Failed, NoTrace, Unpushed, Accepted, Closing, There, Here;
      assert !authenticated ==> unsent == {} && joins == surplus == multiset{};
      hide Unborn;
      KeptAll(Here(), newId);
      if authenticated {
        KeptAll(Here(), id);
        return Closing(BAD_REQUEST);
      }
      Rename(newId);
      match Resolve(settings, cmd, identity)
      case Err(refusal) =>
        ResolveExactly(settings, cmd, identity);
        out := refusal;
      case Ok(c) =>
        var channels := ConnectChannels(settings, c);
        if !AllKnown(settings, channels) {
          return Failed(cmd, UNKNOWN_CHANNEL);
        }
        out := Accept(cmd, c, channels, now, newEpoch);
    }

    /** A CONNECT with an identity and known channels. */
    method Accept(cmd: nat, c: Credentials, channels: seq<Channel>, now: int, newEpoch: Channel -> Epoch) returns (out: Outcome)
      requires Valid() && !authenticated && AllKnown(settings, channels)
      modifies this`user, this`connInfo, this`expireAt, this`authenticated,
               this`subscriptions, this`unsent, this`next, this`surplus, this`pendingJoins,
               engine, node`everRegistered, node.hub, node.hub.shards
      ensures Valid() && Kept(Here(), old(Here()), id) && unsent == ReportedByAll(out.replies)
      ensures AnswersOnly(out, cmd)
      ensures Accepted(Setting(), old(Now()), Now(), out, cmd, c, channels, now, newEpoch)
      ensures authenticated && joins == multiset{} && (surplus == multiset{} || surplus == Repeats(settings, channels))
    {
      hide Delivered, Owing, Unborn, Kept, ReportedByAll, ServerSide, Repeats, Connections, ConnectedBy, ServerValid, AllKnown;
      KeptAll(Here(), id);
      Identify(c);
      var atLimit := AtLimit();
      if atLimit {
        return Closing(CONNECTION_LIMIT);
      }
      out := Welcome(cmd, channels, now, newEpoch);
      ServerSideExactly(settings, channels);
    }

    method Identify(c: Credentials)
      requires Valid() && !authenticated
      modifies this`user, this`connInfo, this`expireAt, this`authenticated
      ensures Owing(Pending()) && Unborn() && ServerValid()
      ensures subscriptions == map[] && joins == leaves == surplus == multiset{} && unsent == {}
      ensures Me() == old(Me()).(user := c.user, connInfo := c.info, expireAt := c.expireAt, authenticated := true)
    {
      hide Delivered, Agrees, Ledger, Order, NodeModel.Node.Valid, HubModel.Hub.Valid, Memory.MemoryEngine.Valid, NoTrace, Unpushed,
           Attached, JoinChannels;
      user, connInfo, expireAt, authenticated := c.user, c.info, c.expireAt, true;
    }

    /** Registers the connection, subscribes it and reports what it got. */
    method Welcome(cmd: nat, channels: seq<Channel>, now: int, newEpoch: Channel -> Epoch) returns (out: Outcome)
      requires Owing(Pending()) && Unborn() && authenticated && AllKnown(settings, channels)
      modifies this`subscriptions, this`unsent, this`next, this`surplus, this`pendingJoins,
               engine, node`everRegistered, node.hub, node.hub.shards
      ensures Valid() && Kept(Here(), old(Here()), id) && unsent == ReportedByAll(out.replies)
      ensures SideSubscribed(Setting(), Snapshot(old(Me()), Registered(Setting(), old(There()), old(Me()))), Now(), channels, now, newEpoch)
      ensures subscriptions == ServerSide(settings, channels) && surplus == Repeats(settings, channels)
      ensures ConnectedBy(out, cmd, settings, channels, engine.streams, node.useSeqGen) && AnswersOnly(out, cmd)
    {
      hide Valid, Owing, NoTrace, Unpushed, Kept, ReportedByAll, ServerSide, Repeats, SideSubscribed, Registered, ReportsAll, There;
      RegisterSelf();
      ghost var middle := Here();
      var subs := SubscribeAll(channels, now, newEpoch);
      KeptOn(Here(), middle, old(Here()), id);
      out := Replied(cmd, ConnectReply(subs, unsent));
      ReportedByOne(out.replies[0]);
      assert ReportedBy(out.replies[0]) == unsent;
    }

    /** Takes the id a CONNECT was given. */
    method Rename(newId: ClientId)
      requires Valid() && !authenticated && NoTrace(Here(), newId)
      modifies this`id
      ensures Valid() && Me() == old(Me()).(id := newId)
    {
      UnpushedOrder(Items(), newId, next);
      id := newId;
    }

    /** Whether the user already has as many connections as allowed. */
    method AtLimit() returns (over: bool)
      requires ServerValid()
      ensures over == OverLimit(settings, node.hub.conns, user)
    {
      if settings.connectionLimit == 0 || user == [] { return false; }
      var handles := node.hub.UserClients(user);
      ListsCount(handles, Connections(node.hub.conns, user), node.hub.conns);
      over := |handles| >= settings.connectionLimit;
    }

    // ---- PUBLISH ----

    /** PUBLISH: a refusal changes nothing; else the entry is the stream's newest (if
        the channel keeps history) and is offered to the channel's subscribers. */
    method OnPublish(cmd: nat, channel: Channel, data: Bytes, proxy: ProxyResult<Option<Bytes>>, now: int, newEpoch: Epoch)
      returns (out: Outcome)
      requires Valid() && authenticated
      modifies engine`history, engine`streams,
               node`queues, node`slowCloses, node.hub`conns, node.hub`users, node.hub`rel, node.hub.shards
      ensures Valid() && Kept(Here(), old(Here()), id)
      ensures ReportedByAll(out.replies) == {}
      ensures PublishDone(Setting(), old(Now()), Now(), out, cmd, channel, data, proxy, now, newEpoch) && AnswersOnly(out, cmd)
    {
      hide Published, MayPublish, Kept, Publishable, PublishRefusedWith, Payload, ReportedByAll, Owing;
      MayPublishExactly(settings, cmd, channel, data, proxy, channel in subscriptions);
      match MayPublish(settings, cmd, channel, data, proxy, channel in subscriptions)
      case Err(refusal) =>
        KeptAll(Here(), id);
        out := refusal;
      case Ok(payload) =>
        MayPublishKnown(settings, channel, data, proxy, channel in subscriptions);
        PublishEntry(channel, Entry(payload, Some(InfoWith(None))), now, newEpoch);
        out := Replied(cmd, OkReply);
        ReportedByOne(out.replies[0]);
    }

    method PublishEntry(channel: Channel, entry: Entry, now: int, newEpoch: Epoch)
      requires Valid() && authenticated && Known(settings, channel)
      modifies engine`history, engine`streams,
               node`queues, node`slowCloses, node.hub`conns, node.hub`users, node.hub`rel, node.hub.shards
      ensures Valid() && Kept(Here(), old(Here()), id) && Published(Setting(), old(There()), There(), channel, entry, now, newEpoch)
    {
      hide Delivered, Agrees, Order, Ledger, Kept, NodeModel.Node.Valid, HubModel.Hub.Valid, Memory.MemoryEngine.PresenceValid,
           Memory.Represents, Attached, JoinChannels, Extends, Dropped, OnTheWire, NodeModel.Node.Slow, MemoryEngine.LiveAt, OrFresh;
      StreamHere(channel, now, newEpoch);
      var o := settings.options(channel).value;
      var (size, lifetime) := if HistoryEnabled(o) then (o.historySize, o.historyLifetime) else (0, 0);
      var routed := engine.Publish(channel, entry, size, lifetime, now, newEpoch);
      ghost var gone := Route(channel, routed);
      OrderExtends(Items(), old(Items()), LivePush(channel, routed, node.useSeqGen), id, Pending(), unsent, next);
      AgreesAfterDrops(old(Here()), id, subscriptions, gone, tx);
    }

    /** HISTORY: a refusal changes nothing; else what the stream still has. Reading
        expires what is due and creates a stream that is missing. */
    method OnHistory(cmd: nat, channel: Channel, now: int, newEpoch: Epoch) returns (out: Outcome)
      requires Valid() && authenticated
      modifies engine`history, engine`streams
      ensures Valid() && ReportedByAll(out.replies) == {}
      ensures HistoryDone(Setting(), old(Now()), Now(), out, cmd, channel, now, newEpoch) && AnswersOnly(out, cmd)
    {
      hide HistoryRefusal, ReportedByAll, Shows, Failed, Owing, Unborn, OrFresh, MemoryEngine.LiveAt;
      HistoryRefusedExactly(settings, cmd, channel, channel in subscriptions);
      StreamHere(channel, now, newEpoch);
      var refusal := HistoryRefusal(settings, cmd, channel, channel in subscriptions);
      if refusal.Some? { return refusal.value; }
      var pubs := ReadHistory(channel, now, newEpoch);
      out := Replied(cmd, HistoryReply(pubs));
      ReportedByOne(out.replies[0]);
    }

    method ReadHistory(channel: Channel, now: int, newEpoch: Epoch) returns (pubs: seq<Publication>)
      requires Valid()
      modifies engine`history, engine`streams
      ensures Valid() && channel in engine.streams
      ensures StreamRead(engine.streams, engine.history, old(engine.streams), old(engine.history), channel, now, newEpoch)
      ensures Shows(pubs, engine.streams[channel], node.useSeqGen)
    {
      hide Order, Ledger, Agrees, Attached, NodeModel.Node.Valid, HubModel.Hub.Valid, Memory.Represents, Memory.MemoryEngine.PresenceValid,
           NoTrace, Unpushed;
      var retained, _ := engine.History(channel, now, newEpoch);
      pubs := retained;
      if node.useSeqGen { pubs := AddSeqGen(retained); }
      ShownWithSeqGen(pubs, engine.streams[channel], node.useSeqGen);
    }

    // ---- closing ----

    /** While the connection closes its subscriptions are gone, but `left` still has
        presence and a Leave to publish. */
    ghost predicate LeavingFrom(left: Subscriptions)
      reads this, node, node.hub, node.hub.shards, engine
    {
      && ServerValid() && Attached(node.hub.conns, id, tx) && PresentExactly(Here(), id, left)
      && Ledger(joins, JoinChannels(Pending()), leaves, left, surplus) && Order(Items(), id, Pending(), unsent, next)
    }

    /** The connection closes: presence and Leave for every subscription, then out of
        the hub, while others act before each. Whatever happened before, even a drop as
        a slow consumer, no trace is left, and with no Join pending the Joins published
        are the Leaves published plus the surplus of a CONNECT. */
    method OnDisconnect(meanwhile: Meanwhile, ghost ours: set<ClientId>)
      requires Valid() && id in ours && Undisturbing(meanwhile, ours)
      modifies this`subscriptions, this`leaves, engine, node, node.hub, node.hub.shards
      ensures ServerValid() && NoTrace(Here(), id)
      ensures joins + JoinChannels(Pending()) == leaves + surplus
      ensures Order(Items(), id, Pending(), unsent, next) && old(Items()) <= Items()
      ensures Disconnected(Setting(), old(Now()), Now(), meanwhile)
    {
      hide Order, Ledger, Attached, JoinChannels, ClosedOne, PresentExactly, NodeModel.Node.Valid, HubModel.Hub.Valid,
           Memory.MemoryEngine.Valid, NoTrace, ClosedInTurn;
      var left := subscriptions;
      subscriptions := map[];
      ghost var start := Now();
      ghost var parts, channels := CloseAll(left, meanwhile, ours);
      LedgerClosed(joins, JoinChannels(Pending()), leaves, surplus);
      Forgotten(Here(), id);
      ghost var last := Now();
      LeaveHub();
      assert ClosedInTurn(Setting(), parts, channels, left, left.Keys, start, last, meanwhile);
    }

    method CloseAll(subs: Subscriptions, meanwhile: Meanwhile, ghost ours: set<ClientId>)
      returns (ghost parts: seq<Part>, ghost channels: seq<Channel>)
      requires LeavingFrom(subs) && id in ours && Undisturbing(meanwhile, ours)
      modifies this`leaves, engine, node, node.hub, node.hub.shards
      ensures LeavingFrom(map[]) && old(Items()) <= Items()
      ensures ClosedInTurn(Setting(), parts, channels, subs, subs.Keys, old(Now()), Now(), meanwhile)
    {
      hide LeavingFrom, Waited, ClosedOne, ClosedInTurn, There, Me;
      var left := subs;
      var k := 0;
      parts, channels := [], [];
      NoneClosed(Setting(), subs, Now(), meanwhile);
      assert subs.Keys - left.Keys == {};
      while left != map[]
        invariant LeavingFrom(left) && old(Items()) <= Items() && k == |parts|
        invariant forall ch :: ch in left ==> ch in subs && left[ch] == subs[ch]
        invariant ClosedInTurn(Setting(), parts, channels, subs, subs.Keys - left.Keys, old(Now()), Now(), meanwhile)
        decreases |left|
      {
        var channel :| channel in left;
        ghost var part := CloseOne(channel, left, AtPoint(meanwhile, k), ours);
        OneMoreClosed(Setting(), parts, channels, subs, subs.Keys - left.Keys, old(Now()), meanwhile, part, channel);
        assert subs.Keys - (left - {channel}).Keys == subs.Keys - left.Keys + {channel};
        parts, channels, left, k := parts + [part], channels + [channel], left - {channel}, k + 1;
      }
      assert subs.Keys - left.Keys == subs.Keys;
    }

    method LeaveHub()
      requires ServerValid()
      modifies node.hub`conns, node.hub`users, node.hub`rel, node.hub.shards
      ensures ServerValid() && There() == old(There()).(world := Forgot(old(Here()), id)) && Here() == Forgot(old(Here()), id)
    {
      hide NodeModel.Node.Valid, HubModel.Hub.Valid, WithoutClient;
      node.Remove(id);
    }

    method CloseOne(channel: Channel, left: Subscriptions, whats: seq<Elsewhere>, ghost ours: set<ClientId>) returns (ghost part: Part)
      requires LeavingFrom(left) && channel in left && id in ours && AllForeign(whats, ours)
      modifies this`leaves, engine, node, node.hub, node.hub.shards
      ensures LeavingFrom(left - {channel}) && old(Items()) <= Items()
      ensures part.b == old(Now()) && part.a == Now() && Waited(Setting(), part.b, part.mid, whats)
      ensures ClosedOne(part.mid, part.a, channel, left[channel])
    {
      hide LeavingFrom, ClosedOne, Between, There;
      ghost var before := Now();
      YieldLeaving(left, whats, ours);
      ghost var middle := Now();
      CloseSubscription(channel, left);
      part := Part(before, middle, Now());
    }

    method YieldLeaving(ghost left: Subscriptions, whats: seq<Elsewhere>, ghost ours: set<ClientId>)
      requires LeavingFrom(left) && id in ours && AllForeign(whats, ours)
      modifies engine, node, node.hub, node.hub.shards
      ensures LeavingFrom(left) && old(Items()) <= Items() && Waited(Setting(), old(Now()), Now(), whats)
    {
      hide Delivered, Agrees, Ledger, Attached, Order, NodeModel.Node.Valid, HubModel.Hub.Valid, Memory.MemoryEngine.Valid, JoinChannels,
           NoTrace, AllSpared, Unborn, Here, Kept, PresentExactly, Between, There;
      ServerTurns(whats, ours);
      SparedOne(Here(), old(Here()), ours, id);
      SparedAgrees(Here(), old(Here()), id, left);
    }

    method CloseSubscription(channel: Channel, left: Subscriptions)
      requires LeavingFrom(left) && channel in left
      modifies this`leaves, engine`presence, engine`present,
               node`queues, node`slowCloses, node.hub`conns, node.hub`users, node.hub`rel, node.hub.shards
      ensures LeavingFrom(left - {channel}) && Kept(Here(), old(Here()), id) && old(Items()) <= Items()
      ensures ClosedOne(old(Now()), Now(), channel, left[channel])
    {
      hide Delivered, Order, Ledger, Kept, NodeModel.Node.Valid, HubModel.Hub.Valid, Memory.MemoryEngine.Valid, Attached, JoinChannels,
           PresentExactly, Once, Absent, Dropped, LeavePublished, There;
      LedgerLeave(joins, JoinChannels(Pending()), leaves, left, surplus, channel);
      ghost var gone := PublishLeave(channel, left[channel]);
      PresentLeave(old(Here()), id, left, channel, gone);
    }

    // ---- expiry ----

    /** Closes a connection overdue for a refresh, or one with such a subscription. */
    method CheckExpired(now: int) returns (d: Option<Disconnect>)
      ensures d == ExpiryVerdict(Me(), now)
    {
      if !authenticated { return None; }
      if Overdue(expireAt, now) { return Some(EXPIRED); }
      var left := subscriptions.Keys;
      while left != {}
        invariant left <= subscriptions.Keys
        invariant forall ch :: ch in subscriptions && ch !in left ==> !Late(subscriptions[ch].expireAt, now)
        decreases |left|
      {
        var ch :| ch in left;
        if Overdue(subscriptions[ch].expireAt, now) { return Some(SUB_EXPIRED); }
        left := left - {ch};
      }
      d := None;
    }

    /** REFRESH. The token's expiry is taken over even if it is already past, but then
        the reply is an error; on success the connection is not overdue. */
    method OnRefresh(cmd: nat, hasToken: bool, token: TokenResult<Credentials>, now: int) returns (out: Outcome)
      requires Valid() && authenticated
      modifies this`user, this`connInfo, this`expireAt
      ensures Valid() && ReportedByAll(out.replies) == {}
      ensures RefreshDone(Setting(), old(Now()), Now(), out, cmd, hasToken, token, now) && AnswersOnly(out, cmd)
    {
      hide Owing, ReportedByAll;
      if !hasToken || settings.hasRefreshProxy { return Closing(BAD_REQUEST); }
      match token
      case TokenExpired => out := Closing(EXPIRED);
      case TokenInvalid => out := Closing(INVALID_TOKEN);
      case Verified(c) =>
        TakeOver(c);
        if expireAt > 0 && expireAt - now <= 0 {
          out := Failed(cmd, EXPIRED_ERROR);
        } else {
          out := Replied(cmd, OkReply);
          ReportedByOne(out.replies[0]);
        }
    }

    method TakeOver(c: Credentials)
      requires Valid() && authenticated
      modifies this`user, this`connInfo, this`expireAt
      ensures Valid() && user == (if c.user == "" then old(user) else c.user) && connInfo == c.info && expireAt == c.expireAt
    {
      hide Order, Ledger, Agrees, NodeModel.Node.Valid, HubModel.Hub.Valid, Memory.MemoryEngine.Valid, Attached, JoinChannels;
      if c.user != "" { user := c.user; }
      connInfo, expireAt := c.info, c.expireAt;
    }

    /** SUB_REFRESH of a channel subscribed by command. A success leaves the
        subscription with the token's expiry, or none if the token had expired. */
    method OnSubRefresh(cmd: nat, channel: Channel, hasToken: bool, token: TokenResult<SubscribeClaims>, now: int) returns (out: Outcome)
      requires Valid() && authenticated
      modifies this`subscriptions
      ensures Valid() && ReportedByAll(out.replies) == {}
      ensures SubRefreshDone(old(Now()), Now(), out, cmd, channel, hasToken, token, now) && AnswersOnly(out, cmd)
      ensures subscriptions.Keys == old(subscriptions).Keys
      ensures out == Replied(cmd, OkReply) ==> channel in subscriptions && !Late(subscriptions[channel].expireAt, now)
    {
      hide Delivered, Order, Ledger, Agrees, NodeModel.Node.Valid, HubModel.Hub.Valid, Memory.MemoryEngine.Valid,
           Attached, JoinChannels, ReportedByAll;
      if channel == [] || (channel in subscriptions && subscriptions[channel].serverSide) { return Closing(BAD_REQUEST); }
      if channel !in subscriptions { return Failed(cmd, PERMISSION_DENIED); }
      if !hasToken { return Failed(cmd, BAD_REQUEST_ERROR); }
      var state := subscriptions[channel];
      match token {
      case TokenInvalid => return Closing(INVALID_TOKEN);
      case TokenExpired => state := state.(expireAt := 0);
      case Verified(t) =>
        if t.client != id || t.channel != channel { return Closing(INVALID_TOKEN); }
        if t.expireAt > 0 && t.expireAt < now { return Failed(cmd, EXPIRED_ERROR); }
        state := state.(expireAt := t.expireAt, chanInfo := t.info);
      }
      SameShape(Here(), id, subscriptions, channel, state, joins, JoinChannels(Pending()), leaves, surplus);
      subscriptions := subscriptions[channel := state];
      out := Replied(cmd, OkReply);
      ReportedByOne(out.replies[0]);
    }

    /** With a refresh proxy, renews a token about to expire; a connection it does not
        close is not past its expiry. */
    method ProactiveRefresh(proxy: ProxyResult<Renewal>, now: int) returns (d: Option<Disconnect>)
      requires Valid()
      modifies this`connInfo, this`expireAt
      ensures Valid() && Me() == if Due(Setting(), old(Me()), now) then Renewed(old(Me()), proxy) else old(Me())
      ensures d == if Due(Setting(), old(Me()), now) then RenewalVerdict(proxy, now) else None
      ensures d == None && settings.hasRefreshProxy && authenticated && expireAt > 0 ==> now < expireAt
    {
      hide Delivered, Order, Ledger, Agrees, NodeModel.Node.Valid, HubModel.Hub.Valid, Memory.MemoryEngine.Valid,
           Attached, JoinChannels, ReportedByAll, NoTrace;
      if !settings.hasRefreshProxy || !authenticated || expireAt <= 0 || expireAt - now > settings.presencePing { return None; }
      match proxy
      case ProxyDisconnect(disconnect) => d := Some(disconnect);
      case ProxyError(_) => d := Some(SERVER_ERROR);
      case ProxyFailed => d := Some(SERVER_ERROR);
      case ProxyOk(c) =>
        if c.expired { return Some(EXPIRED); }
        if c.info.Some? { connInfo := c.info; }
        if c.expireAt <= 0 { return Some(EXPIRED); }
        expireAt := c.expireAt;
        d := if expireAt - now <= 0 then Some(EXPIRED) else None;
    }

    /** Says again that the client is present, with its current info, wherever it is
        subscribed with presence on; nobody's membership changes. */
    method RefreshPresence()
      requires Valid()
      modifies engine`presence, engine`present
      ensures Valid() && Here() == old(Here())
      ensures Reasserted(old(Now()), Now())
    {
      hide Valid, ReassertedIn, PresenceSet, Here;
      if !authenticated {
        NothingReasserted(Me(), engine.presence);
        return;
      }
      var left := subscriptions.Keys;
      NothingReasserted(Me(), engine.presence);
      assert subscriptions.Keys - left == {};
      while left != {}
        invariant left <= subscriptions.Keys && Valid() && Here() == old(Here())
        invariant ReassertedIn(engine.presence, old(engine.presence), Me(), subscriptions.Keys - left)
        decreases |left|
      {
        var ch :| ch in left;
        ghost var before := engine.presence;
        if subscriptions[ch].presence { Reassert(ch); }
        OneMoreReasserted(engine.presence, before, old(engine.presence), Me(), subscriptions.Keys - left, ch);
        assert subscriptions.Keys - (left - {ch}) == subscriptions.Keys - left + {ch};
        left := left - {ch};
      }
      assert subscriptions.Keys - left == subscriptions.Keys;
    }

    method Reassert(channel: Channel)
      requires Valid() && channel in subscriptions && subscriptions[channel].presence
      modifies engine`presence, engine`present
      ensures Valid() && Here() == old(Here())
      ensures PresenceSet(engine.presence, old(engine.presence), channel, id, InfoWith(subscriptions[channel].chanInfo))
    {
      hide Order, Ledger, NodeModel.Node.Valid, HubModel.Hub.Valid, Memory.MemoryEngine.HistoryValid, Memory.MemoryEngine.PresenceValid,
           PresenceSet, Attached, JoinChannels;
      engine.AddPresence(channel, id, InfoWith(subscriptions[channel].chanInfo));
      assert engine.present == old(engine.present);
    }

    // ---- dispatch ----

    /** One command. CONNECT must come first. Every reply that reports a subscription
        is accounted for until it is sent. */
    method HandleCommand(cmd: Command, now: int, newEpoch: Channel -> Epoch) returns (out: Outcome)
      requires Valid() && (cmd.body.ConnectCmd? && !authenticated ==> NoTrace(Here(), cmd.body.newId))
      modifies this, engine, node`queues, node`slowCloses, node`everRegistered, node.hub, node.hub.shards
      ensures Valid() && Kept(Here(), old(Here()), id)
      ensures unsent == old(unsent) + ReportedByAll(out.replies) && joins == old(joins)
      ensures id == if cmd.body.ConnectCmd? && !old(authenticated) then cmd.body.newId else old(id)
      ensures !authenticated ==> !old(authenticated) && Here() == old(Here())
      ensures surplus == old(surplus) || surplus == Extra(settings, cmd)
      ensures Done(Setting(), old(Now()), Now(), cmd, out, now, newEpoch) && AnswersOnly(out, cmd.id)
      ensures old(authenticated) ==> subscriptions.Keys == Subscribed(settings, cmd, old(id), old(user), old(subscriptions))
    {
      hide Valid, ReportedByAll, Kept, NoTrace, Extra, ConnectDone, SubscribeDone, UnsubscribeDone, PublishDone, HistoryDone, RefreshDone,
           SubRefreshDone, Entitled, There, Here;
      if !authenticated && !cmd.body.ConnectCmd? {
        KeptAll(Here(), id);
        assert unsent + {} == unsent;
        return Closing(BAD_REQUEST);
      }
      match cmd.body
      case ConnectCmd(identity, newId) => out := OnConnect(cmd.id, identity, newId, now, newEpoch);
      case _ => out := Dispatch(cmd, now, newEpoch);
    }

    /** A command of an authenticated client. */
    method Dispatch(cmd: Command, now: int, newEpoch: Channel -> Epoch) returns (out: Outcome)
      requires Valid() && authenticated && !cmd.body.ConnectCmd?
      modifies this`user, this`connInfo, this`expireAt, this`subscriptions, this`pendingJoins, this`leaves, this`surplus,
               this`unsent, this`next, engine, node`queues, node`slowCloses, node.hub`conns, node.hub`users, node.hub`rel, node.hub.shards
      ensures Valid() && Kept(Here(), old(Here()), id)
      ensures unsent == old(unsent) + ReportedByAll(out.replies) && surplus == old(surplus)
      ensures CommandDone(Setting(), old(Now()), Now(), cmd, out, now, newEpoch) && AnswersOnly(out, cmd.id)
      ensures subscriptions.Keys == Subscribed(settings, cmd, id, old(user), old(subscriptions))
    {
      hide Valid, ReportedByAll, Kept, Entitled, SubscribeDone, UnsubscribeDone, PublishDone, HistoryDone, RefreshDone,
           SubRefreshDone, There, Here, Me;
      KeptAll(Here(), id);
      assert unsent + {} == unsent;
      match cmd.body
      case SubscribeCmd(req) => out := OnSubscribe(cmd.id, req, now, newEpoch(req.channel));
      case UnsubscribeCmd(channel) => out := OnUnsubscribe(cmd.id, channel);
      case PublishCmd(channel, data, proxy) => out := OnPublish(cmd.id, channel, data, proxy, now, newEpoch(channel));
      case RefreshCmd(hasToken, token) => out := OnRefresh(cmd.id, hasToken, token, now);
      case SubRefreshCmd(channel, hasToken, token) => out := OnSubRefresh(cmd.id, channel, hasToken, token, now);
      case HistoryCmd(channel) => out := OnHistory(cmd.id, channel, now, newEpoch(channel));
      case MalformedCmd => out := Closing(BAD_REQUEST);
      case SendCmd => out := Silent();
      case QueryCmd(answer) => out := Answered(cmd.id, answer);
    }
  }
}
