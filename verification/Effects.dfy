/** What commands, signals and the rest of the server do to a connection and its server,
    as relations between what is before and what is after. */
module Effects {
  import opened Common
  import opened Types
  import opened HubModel
  import opened NodeModel
  import opened StreamModel
  import opened Session
  import opened Memory
  import opened Commands

  /** What never changes: the settings, and the connection's queue and protocol. */
  datatype Setup = Setup(settings: Settings, useSeqGen: bool, metaTtl: nat, tx: nat, proto: ProtocolType)

  /** A connection's own state, its books included. */
  datatype Mine = Mine(id: ClientId, user: string, authenticated: bool, connInfo: Option<Bytes>, expireAt: int,
                       subs: Subscriptions, pending: seq<Deferred>,
                       joins: multiset<Channel>, leaves: multiset<Channel>, surplus: multiset<Channel>, unsent: set<Made>, next: nat)

  /** The server's state, as far as connections see it. */
  datatype Server = Server(world: World, presence: Presences,
                           streams: map<Channel, Stream>, history: map<Channel, Ring>,
                           queues: map<nat, Queue>, signals: map<nat, Inbox>, slowCloses: seq<nat>)
  {
    ghost function Items(tx: nat): seq<Out<WireFrame>> { if tx in queues then queues[tx].items else [] }

    ghost predicate WriterGone(tx: nat) { tx !in queues || queues[tx].closed }

    /** The stream a reader finds in a channel, expired as far as it is due. */
    ghost function StreamAt(channel: Channel, now: int, newEpoch: Epoch): Stream {
      StreamIn(streams, history, channel, now, newEpoch)
    }

    /** Registered subscribers whose queue is full. */
    ghost function SlowOn(channel: Channel): set<ClientId> {
      set id | id in world.conns && (id, channel) in world.rel && world.conns[id].tx in queues && Full(queues[world.conns[id].tx])
    }
  }

  ghost function StreamIn(streams: map<Channel, Stream>, history: map<Channel, Ring>, channel: Channel, now: int, newEpoch: Epoch): Stream {
    OrFresh(if channel in streams && channel in history then Live(streams[channel], history[channel], now) else None, newEpoch)
  }

  datatype Snapshot = Snapshot(me: Mine, server: Server)

  /** An item is queued for this connection, if its writer is still there. */
  ghost predicate Queued(at: Setup, b: Server, a: Server, item: Out<WireFrame>) {
    && a == b.(queues := a.queues) && a.queues.Keys == b.queues.Keys
    && (forall t :: t in b.queues && t != at.tx ==> a.queues[t] == b.queues[t])
    && a.WriterGone(at.tx) == b.WriterGone(at.tx)
    && a.Items(at.tx) == if b.WriterGone(at.tx) then b.Items(at.tx) else b.Items(at.tx) + [item]
  }

  /** A push is offered to the subscribers of its channel, and the slow ones are dropped. */
  ghost predicate PushedOut(b: Server, a: Server, push: Push) {
    && a == b.(world := Dropped(b.world, b.SlowOn(push.channel)), queues := a.queues, slowCloses := a.slowCloses)
    && Delivered(a.queues, b.queues, b.world.conns, b.world.rel, push)
  }

  // ---- what each command does ----

  /** SUBSCRIBE: whoever is entitled gets in, with the channel's options and what token
      or proxy say, and is told what the stream has; anyone else changes nothing. */
  ghost predicate SubscribeDone(at: Setup, b: Snapshot, a: Snapshot, out: Outcome, cmd: nat, req: SubscribeRequest,
                                now: int, newEpoch: Epoch)
  {
    if !Entitled(at.settings, req, b.me.id, b.me.user, b.me.subs) then
      RefusedWith(out, at.settings, cmd, req, b.me.id, b.me.user, b.me.subs) && a == b
    else
      && req.channel in a.me.subs && out == Replied(cmd, SubscribeReply(req.channel, Reported(out), b.me.next))
      && StateGranted(a.me.subs[req.channel], at.settings, req)
      && LetIn(at, b, a, a.me.subs[req.channel], Reported(out), req, now, newEpoch)
  }

  /** In the channel, with presence and a Join put off where it wants them, and told what
      its stream has where it recovers. */
  ghost predicate LetIn(at: Setup, b: Snapshot, a: Snapshot, state: SubState, result: SubscribeResult, req: SubscribeRequest,
                        now: int, newEpoch: Epoch)
  {
    var info := ClientInfo(b.me.user, b.me.id, b.me.connInfo, state.chanInfo);
    && a.me == b.me.(subs := b.me.subs[req.channel := state],
                     pending := WithDeferred(b.me.pending, state.joinLeave, Deferred(req.channel, info, b.me.next)),
                     unsent := b.me.unsent + {(b.me.next, req.channel)}, next := b.me.next + 1)
    && Welcomed(at, b.server, a.server, info, state, result, req, now, newEpoch)
  }

  ghost predicate Welcomed(at: Setup, b: Server, a: Server, info: ClientInfo, state: SubState, result: SubscribeResult,
                           req: SubscribeRequest, now: int, newEpoch: Epoch)
  {
    && InChannel(b, a, req.channel, info, state)
    && if state.recoverable then RecoveryReported(a.streams, a.history, b.streams, b.history, result, req, at.useSeqGen, now, newEpoch)
       else result == NOT_RECOVERABLE && a.streams == b.streams && a.history == b.history
  }

  /** Into the hub, and present if the channel wants it. */
  ghost predicate InChannel(b: Server, a: Server, channel: Channel, info: ClientInfo, state: SubState) {
    && a == b.(world := Entered(b.world, info.client, channel, state.presence),
               presence := a.presence, streams := a.streams, history := a.history)
    && if state.presence then PresenceSet(a.presence, b.presence, channel, info.client, info) else a.presence == b.presence
  }

  /** A channel's stream is read: expired as far as it is due, created if missing. */
  ghost predicate StreamRead(streams: map<Channel, Stream>, history: map<Channel, Ring>, streams0: map<Channel, Stream>,
                             history0: map<Channel, Ring>, channel: Channel, now: int, newEpoch: Epoch)
  {
    streams == streams0[channel := StreamIn(streams0, history0, channel, now, newEpoch)] && RingRead(history, history0, channel, now)
  }

  /** The stream that is read is what the reply answers from. */
  ghost predicate RecoveryReported(streams: map<Channel, Stream>, history: map<Channel, Ring>, streams0: map<Channel, Stream>,
                                   history0: map<Channel, Ring>, result: SubscribeResult, req: SubscribeRequest, useSeqGen: bool,
                                   now: int, newEpoch: Epoch)
  {
    var s := StreamIn(streams0, history0, req.channel, now, newEpoch);
    && StreamRead(streams, history, streams0, history0, req.channel, now, newEpoch)
    && (|s.log| < TWO_64 ==> Answers(result, s, req, useSeqGen))
  }

  /** UNSUBSCRIBE: out of the channel, with one Leave to its subscribers if it announces,
      the client itself still among them. */
  ghost predicate UnsubscribeDone(b: Snapshot, a: Snapshot, out: Outcome, cmd: nat, channel: Channel) {
    if channel == [] then out == Closing(BAD_REQUEST) && a == b
    else out == Replied(cmd, OkReply) && LeftChannel(b, a, channel)
  }

  /** Presence off, and one Leave to the channel if it announces, by a client that is
      still in it. */
  ghost predicate LeavePublished(b: Server, a: Server, me: Mine, channel: Channel, state: SubState) {
    var middle := b.(world := Absent(b.world, me.id, channel, state.presence), presence := a.presence);
    && (if state.presence then PresenceGone(a.presence, b.presence, channel, me.id) else a.presence == b.presence)
    && if state.joinLeave then PushedOut(middle, a, LeavePush(channel, ClientInfo(me.user, me.id, me.connInfo, state.chanInfo)))
       else a == middle
  }

  /** Out of a channel: the Leave first, then the hub. */
  ghost predicate LeftChannel(b: Snapshot, a: Snapshot, channel: Channel) {
    if channel !in b.me.subs then a == b
    else exists middle: Server ::
      && LeavePublished(b.server, middle, b.me, channel, b.me.subs[channel])
      && a.server == middle.(world := Left(middle.world, b.me.id, channel))
      && a.me == b.me.(subs := b.me.subs - {channel}, leaves := b.me.leaves + Once(channel, b.me.subs[channel].joinLeave))
  }

  /** The stream grows by the entry where the channel keeps history, and every subscriber
      is offered it with its position; the slow ones are dropped. */
  ghost predicate Published(at: Setup, b: Server, a: Server, channel: Channel, entry: Entry, now: int, newEpoch: Epoch)
    requires Known(at.settings, channel)
  {
    var o := at.settings.options(channel).value;
    var before := b.StreamAt(channel, now, newEpoch);
    var kept := o.historySize > 0 && o.historyLifetime > 0;
    var middle := b.(streams := a.streams, history := a.history);
    && a.streams == (if kept then b.streams[channel := Append(before, entry, o.historySize)] else b.streams)
    && (if kept then RingRestarted(a.history, b.history, channel, o.historyLifetime, at.metaTtl, now) else a.history == b.history)
    && var publication := Publication(entry.data, entry.info, if kept then |before.log| + 1 else 0, 0, 0);
       PushedOut(middle, a, LivePush(channel, publication, at.useSeqGen))
  }

  /** PUBLISH: whoever may publish does, as itself; anyone else changes nothing. */
  ghost predicate PublishDone(at: Setup, b: Snapshot, a: Snapshot, out: Outcome, cmd: nat, channel: Channel, data: Bytes,
                              proxy: ProxyResult<Option<Bytes>>, now: int, newEpoch: Epoch)
  {
    if !Publishable(at.settings, channel, data, proxy, channel in b.me.subs) then
      PublishRefusedWith(out, at.settings, cmd, channel, data, proxy, channel in b.me.subs) && a == b
    else
      && out == Replied(cmd, OkReply) && a.me == b.me && Known(at.settings, channel)
      && var info := ClientInfo(b.me.user, b.me.id, b.me.connInfo, None);
         Published(at, b.server, a.server, channel, Entry(Payload(at.settings, channel, data, proxy), Some(info)), now, newEpoch)
  }

  /** HISTORY: a subscriber of a channel that keeps and shows history gets all of it. */
  ghost predicate HistoryDone(at: Setup, b: Snapshot, a: Snapshot, out: Outcome, cmd: nat, channel: Channel, now: int, newEpoch: Epoch) {
    match HistoryRefusal(at.settings, cmd, channel, channel in b.me.subs)
    case Some(refusal) => out == refusal && a == b
    case None =>
      var s := b.server.StreamAt(channel, now, newEpoch);
      && a.me == b.me && a.server == b.server.(streams := a.server.streams, history := a.server.history)
      && StreamRead(a.server.streams, a.server.history, b.server.streams, b.server.history, channel, now, newEpoch)
      && exists pubs :: out == Replied(cmd, HistoryReply(pubs)) && Shows(pubs, s, at.useSeqGen)
  }

  /** REFRESH: a verified token is taken over, even if it is already past, but then the
      reply is an error. */
  ghost predicate RefreshDone(at: Setup, b: Snapshot, a: Snapshot, out: Outcome, cmd: nat, hasToken: bool,
                              token: TokenResult<Credentials>, now: int)
  {
    && a.server == b.server
    && if hasToken && !at.settings.hasRefreshProxy && token.Verified? then
         var c := token.claims;
         && a.me == b.me.(user := if c.user == "" then b.me.user else c.user, connInfo := c.info, expireAt := c.expireAt)
         && out == if 0 < c.expireAt <= now then Failed(cmd, 110) else Replied(cmd, OkReply)
       else
         && a.me == b.me
         && out == Closing(if !hasToken || at.settings.hasRefreshProxy then BAD_REQUEST
                           else if token.TokenExpired? then EXPIRED else INVALID_TOKEN)
  }

  /** SUB_REFRESH: for a channel subscribed by command, a matching token that is not past
      sets the expiry and info; an expired token clears the expiry; else nothing
      changes. */
  ghost predicate SubRefreshDone(b: Snapshot, a: Snapshot, out: Outcome, cmd: nat, channel: Channel,
                                 hasToken: bool, token: TokenResult<SubscribeClaims>, now: int)
  {
    var mine := channel in b.me.subs && !b.me.subs[channel].serverSide;
    var fits := token.Verified? && token.claims.client == b.me.id && token.claims.channel == channel;
    && a.server == b.server
    && if channel != [] && mine && hasToken && token.TokenExpired? then
         && out == Replied(cmd, OkReply)
         && a.me == b.me.(subs := b.me.subs[channel := b.me.subs[channel].(expireAt := 0)])
       else if channel != [] && mine && hasToken && fits && !(0 < token.claims.expireAt < now) then
         && out == Replied(cmd, OkReply)
         && a.me == b.me.(subs := b.me.subs[channel :=
              b.me.subs[channel].(expireAt := token.claims.expireAt, chanInfo := token.claims.info)])
       else
         && a.me == b.me
         && out == if channel == [] || (channel in b.me.subs && !mine) then Closing(BAD_REQUEST)
                   else if !mine then Failed(cmd, 103)
                   else if !hasToken then Failed(cmd, 107)
                   else if !fits then Closing(INVALID_TOKEN)
                   else Failed(cmd, 110)
  }

  /** The first CONNECT: a refusal leaves the connection unknown; over the connection
      limit it closes unregistered; else it is registered under its new id, subscribed
      to its channels with their options, and told where each stands. */
  ghost predicate ConnectDone(at: Setup, b: Snapshot, a: Snapshot, out: Outcome, cmd: nat, identity: Identity, newId: ClientId,
                              now: int, newEpoch: Channel -> Epoch)
  {
    var named := b.(me := b.me.(id := newId));
    match Resolve(at.settings, cmd, identity)
    case Err(refusal) => out == refusal && a == named
    case Ok(c) =>
      var channels := ConnectChannels(at.settings, c);
      if !AllKnown(at.settings, channels) then out == Failed(cmd, 102) && a == named
      else Accepted(at, named, a, out, cmd, c, channels, now, newEpoch)
  }

  /** An identity with known channels. */
  ghost predicate Accepted(at: Setup, b: Snapshot, a: Snapshot, out: Outcome, cmd: nat, c: Credentials, channels: seq<Channel>,
                           now: int, newEpoch: Channel -> Epoch)
    requires AllKnown(at.settings, channels)
  {
    var me := b.me.(user := c.user, authenticated := true, connInfo := c.info, expireAt := c.expireAt);
    if OverLimit(at.settings, b.server.world.conns, c.user) then out == Closing(CONNECTION_LIMIT) && a == b.(me := me)
    else
      && SideSubscribed(at, Snapshot(me, Registered(at, b.server, me)), a, channels, now, newEpoch)
      && (forall ch :: ch in a.me.subs <==> ch in channels)
      && a.me.surplus == Repeats(at.settings, channels)
      && ConnectedBy(out, cmd, at.settings, channels, a.server.streams, at.useSeqGen)
  }

  ghost function Registered(at: Setup, b: Server, me: Mine): Server {
    b.(world := b.world.(conns := b.world.conns[me.id := ClientHandle(me.id, me.user, at.proto, at.tx, true)]))
  }

  /** Subscribed to these channels by a CONNECT, one after the other. */
  ghost predicate SideSubscribed(at: Setup, b: Snapshot, a: Snapshot, channels: seq<Channel>, now: int, newEpoch: Channel -> Epoch)
    requires AllKnown(at.settings, channels)
    decreases |channels|
  {
    if channels == [] then a == b
    else
      var n := |channels| - 1;
      exists m :: SideSubscribed(at, b, m, channels[..n], now, newEpoch) && SideEntered(at, m, a, channels[n], now, newEpoch(channels[n]))
  }

  lemma NoneSide(at: Setup, b: Snapshot, now: int, newEpoch: Channel -> Epoch)
    ensures AllKnown(at.settings, []) && SideSubscribed(at, b, b, [], now, newEpoch)
  {
  }

  lemma OneMoreSide(at: Setup, b: Snapshot, m: Snapshot, a: Snapshot, channels: seq<Channel>, channel: Channel,
                    now: int, newEpoch: Channel -> Epoch)
    requires AllKnown(at.settings, channels) && Known(at.settings, channel)
    requires SideSubscribed(at, b, m, channels, now, newEpoch) && SideEntered(at, m, a, channel, now, newEpoch(channel))
    ensures AllKnown(at.settings, channels + [channel]) && SideSubscribed(at, b, a, channels + [channel], now, newEpoch)
  {
    hide SideEntered;
    assert (channels + [channel])[..|channels|] == channels;
  }

  /** One of them, with the channel's options; its stream is read if it recovers. */
  ghost predicate SideEntered(at: Setup, b: Snapshot, a: Snapshot, channel: Channel, now: int, newEpoch: Epoch)
    requires Known(at.settings, channel)
  {
    && channel in a.me.subs && GrantedByServer(a.me.subs[channel], at.settings, channel)
    && var state := a.me.subs[channel];
       var info := ClientInfo(b.me.user, b.me.id, b.me.connInfo, None);
       && a.me == b.me.(subs := b.me.subs[channel := state],
                        pending := WithDeferred(b.me.pending, state.joinLeave, Deferred(channel, info, b.me.next)),
                        surplus := b.me.surplus + Once(channel, state.joinLeave && channel in b.me.subs),
                        unsent := b.me.unsent + {(b.me.next, channel)}, next := b.me.next + 1)
       && SideAdmitted(b.server, a.server, channel, info, state, now, newEpoch)
  }

  ghost predicate SideAdmitted(b: Server, a: Server, channel: Channel, info: ClientInfo, state: SubState, now: int, newEpoch: Epoch) {
    && InChannel(b, a, channel, info, state)
    && if state.recoverable then StreamRead(a.streams, a.history, b.streams, b.history, channel, now, newEpoch)
       else a.streams == b.streams && a.history == b.history
  }

  /** A named user who already has as many connections as the server allows one. */
  ghost predicate OverLimit(s: Settings, conns: Conns, user: string) {
    s.connectionLimit > 0 && user != "" && |Connections(conns, user)| >= s.connectionLimit
  }

  /** What a command of an authenticated client does. */
  ghost predicate CommandDone(at: Setup, b: Snapshot, a: Snapshot, cmd: Command, out: Outcome, now: int, newEpoch: Channel -> Epoch) {
    match cmd.body
    case ConnectCmd(_, _) => out == Closing(BAD_REQUEST) && a == b
    case SubscribeCmd(req) => SubscribeDone(at, b, a, out, cmd.id, req, now, newEpoch(req.channel))
    case UnsubscribeCmd(channel) => UnsubscribeDone(b, a, out, cmd.id, channel)
    case PublishCmd(channel, data, proxy) => PublishDone(at, b, a, out, cmd.id, channel, data, proxy, now, newEpoch(channel))
    case RefreshCmd(hasToken, token) => RefreshDone(at, b, a, out, cmd.id, hasToken, token, now)
    case SubRefreshCmd(channel, hasToken, token) => SubRefreshDone(b, a, out, cmd.id, channel, hasToken, token, now)
    case HistoryCmd(channel) => HistoryDone(at, b, a, out, cmd.id, channel, now, newEpoch(channel))
    case MalformedCmd => out == Closing(BAD_REQUEST) && a == b
    case SendCmd => out == Outcome([], None) && a == b
    case QueryCmd(answer) =>
      && a == b
      && match answer
         case ProxyOk(_) => out == Replied(cmd.id, OkReply)
         case ProxyError(code) => out == Failed(cmd.id, code)
         case ProxyDisconnect(d) => out == Closing(d)
         case ProxyFailed => out == Failed(cmd.id, 100)
  }

  /** What a command does: CONNECT must come first, and only once. */
  ghost predicate Done(at: Setup, b: Snapshot, a: Snapshot, cmd: Command, out: Outcome, now: int, newEpoch: Channel -> Epoch) {
    if b.me.authenticated then CommandDone(at, b, a, cmd, out, now, newEpoch)
    else match cmd.body
      case ConnectCmd(identity, newId) => ConnectDone(at, b, a, out, cmd.id, identity, newId, now, newEpoch)
      case _ => out == Closing(BAD_REQUEST) && a == b
  }

  // ---- what the rest of the server does ----

  /** What an event elsewhere does. Connecting under an id or a queue that is taken, and a
      slow close that was not scheduled, do nothing. */
  ghost predicate Happened(at: Setup, b: Server, a: Server, what: Elsewhere) {
    match what
    case OtherConnects(handle) =>
      if handle.id in b.world.conns || handle.tx in b.queues then a == b
      else a == b.(world := b.world.(conns := b.world.conns[handle.id := handle]),
                   queues := b.queues[handle.tx := Queue([], 0, false)], signals := b.signals[handle.tx := Inbox([], false)])
    case OtherSubscribes(other, channel) => a == b.(world := b.world.(rel := b.world.rel + {(other, channel)}))
    case OtherUnsubscribes(other, channel) => a == b.(world := b.world.(rel := b.world.rel - {(other, channel)}))
    case OtherPresent(other, channel, info) =>
      && a == b.(world := b.world.(present := b.world.present + {(other, channel)}), presence := a.presence)
      && PresenceSet(a.presence, b.presence, channel, other, info)
    case OtherAbsent(other, channel) =>
      && a == b.(world := b.world.(present := b.world.present - {(other, channel)}), presence := a.presence)
      && PresenceGone(a.presence, b.presence, channel, other)
    case OtherCloses(other) =>
      a == b.(world := World(b.world.conns - {other}, WithoutClient(b.world.rel, other), b.world.present))
    case PushRouted(push) => PushedOut(b, a, push)
    case HistoryWritten(channel, entry, size, lifetime, now, epoch) =>
      && a == b.(streams := a.streams, history := a.history)
      && if size > 0 && lifetime > 0 then
           && a.streams == b.streams[channel := Append(b.StreamAt(channel, now, epoch), entry, size)]
           && RingRestarted(a.history, b.history, channel, lifetime, at.metaTtl, now)
         else a.streams == b.streams && a.history == b.history
    case ControlArrives(cmd) => a == b.(signals := a.signals) && ControlApplied(b.world.conns, a.signals, b.signals, cmd)
    case WriterRuns(writer, n, gone) =>
      && a == b.(queues := a.queues) && a.queues.Keys == b.queues.Keys
      && forall t :: t in b.queues ==>
           && a.queues[t].items == b.queues[t].items
           && (t != writer ==> a.queues[t] == b.queues[t])
           && (t == writer ==> a.queues[t].closed == (b.queues[t].closed || gone))
    case SlowCloseQueued =>
      if at.tx in b.slowCloses then Queued(at, b, a, Close(SLOW)) else a == b
  }

  /** Several events, one after the other, through these states. */
  ghost predicate Passed(at: Setup, states: seq<Server>, whats: seq<Elsewhere>) {
    && |states| == |whats| + 1
    && forall i :: 0 <= i < |whats| ==> Happened(at, states[i], states[i + 1], whats[i])
  }

  /** All this happened in turn. */
  ghost predicate Between(at: Setup, b: Server, a: Server, whats: seq<Elsewhere>) {
    exists states :: Passed(at, states, whats) && states[0] == b && states[|whats|] == a
  }

  lemma NothingBetween(at: Setup, b: Server)
    ensures Between(at, b, b, [])
  {
    assert Passed(at, [b], []);
  }

  /** The connection waited while this happened. */
  ghost predicate Waited(at: Setup, b: Snapshot, a: Snapshot, whats: seq<Elsewhere>) {
    a.me == b.me && Between(at, b.server, a.server, whats)
  }

  // ---- handlers that wait in the middle ----

  /** Part of a handler: what was before, when others were done, and after. */
  datatype Part = Part(b: Snapshot, mid: Snapshot, a: Snapshot)

  /** The parts follow one another from `b` to `a`, others acting before each. */
  ghost predicate Parts(at: Setup, parts: seq<Part>, b: Snapshot, a: Snapshot, meanwhile: Meanwhile) {
    && (parts == [] ==> a == b)
    && (parts != [] ==> parts[0].b == b && parts[|parts| - 1].a == a)
    && (forall k :: 0 <= k < |parts| - 1 ==> parts[k].a == parts[k + 1].b)
    && (forall k :: 0 <= k < |parts| ==> Waited(at, parts[k].b, parts[k].mid, AtPoint(meanwhile, k)))
  }

  lemma OnePartMore(at: Setup, parts: seq<Part>, b: Snapshot, a: Snapshot, meanwhile: Meanwhile, part: Part)
    requires Parts(at, parts, b, a, meanwhile) && part.b == a && Waited(at, part.b, part.mid, AtPoint(meanwhile, |parts|))
    ensures Parts(at, parts + [part], b, part.a, meanwhile)
  {
    hide Waited;
  }

  /** A deferred Join is offered to the channel's subscribers. */
  ghost predicate Joined(b: Snapshot, a: Snapshot, d: Deferred) {
    && b.me.pending != [] && b.me.pending[0] == d
    && a.me == b.me.(pending := b.me.pending[1..], joins := b.me.joins + multiset{d.channel})
    && PushedOut(b.server, a.server, JoinPush(d.channel, d.info, d.serial))
  }

  /** Deferred Joins are published in turn, others acting before each. */
  ghost predicate JoinedInTurn(at: Setup, parts: seq<Part>, deferred: seq<Deferred>, b: Snapshot, a: Snapshot, meanwhile: Meanwhile) {
    && Parts(at, parts, b, a, meanwhile) && |parts| == |deferred|
    && forall k :: 0 <= k < |parts| ==> Joined(parts[k].mid, parts[k].a, deferred[k])
  }

  lemma NoneJoined(at: Setup, b: Snapshot, meanwhile: Meanwhile)
    ensures JoinedInTurn(at, [], [], b, b, meanwhile)
  {
  }

  lemma OneMoreJoined(at: Setup, parts: seq<Part>, deferred: seq<Deferred>, b: Snapshot, meanwhile: Meanwhile, part: Part, d: Deferred)
    requires JoinedInTurn(at, parts, deferred, b, part.b, meanwhile)
    requires Waited(at, part.b, part.mid, AtPoint(meanwhile, |parts|)) && Joined(part.mid, part.a, d)
    ensures JoinedInTurn(at, parts + [part], deferred + [d], b, part.a, meanwhile)
  {
    hide Waited, Parts, Joined;
    OnePartMore(at, parts, b, part.b, meanwhile, part);
  }

  /** All deferred Joins are published, in order. */
  ghost predicate Flushed(at: Setup, b: Snapshot, a: Snapshot, meanwhile: Meanwhile) {
    exists parts :: JoinedInTurn(at, parts, b.me.pending, b, a, meanwhile)
  }

  /** The client is taken out of a channel and told so. */
  ghost predicate ToldOut(at: Setup, b: Snapshot, a: Snapshot, channel: Channel) {
    if channel !in b.me.subs then a == b
    else exists m: Snapshot ::
      && LeftChannel(b, m, channel)
      && a.me == m.me && Queued(at, m.server, a.server, Frame(WireFrame(at.proto, Pushed(UnsubPush(channel)))))
  }

  /** The client is taken out of these channels in turn, others acting before each. */
  ghost predicate ToldInTurn(at: Setup, parts: seq<Part>, channels: seq<Channel>, all: set<Channel>, b: Snapshot, a: Snapshot,
                             meanwhile: Meanwhile)
  {
    && Parts(at, parts, b, a, meanwhile) && EachOnce(channels, all) && |parts| == |channels|
    && forall k :: 0 <= k < |parts| ==> ToldOut(at, parts[k].mid, parts[k].a, channels[k])
  }

  lemma NoneTold(at: Setup, b: Snapshot, meanwhile: Meanwhile)
    ensures ToldInTurn(at, [], [], {}, b, b, meanwhile)
  {
  }

  lemma OneMoreTold(at: Setup, parts: seq<Part>, channels: seq<Channel>, all: set<Channel>, b: Snapshot, meanwhile: Meanwhile,
                    part: Part, channel: Channel)
    requires ToldInTurn(at, parts, channels, all, b, part.b, meanwhile) && channel !in all
    requires Waited(at, part.b, part.mid, AtPoint(meanwhile, |parts|)) && ToldOut(at, part.mid, part.a, channel)
    ensures ToldInTurn(at, parts + [part], channels + [channel], all + {channel}, b, part.a, meanwhile)
  {
    hide Waited, Parts, ToldOut;
    OnePartMore(at, parts, b, part.b, meanwhile, part);
  }

  /** An unsubscribe signal: one channel, or every channel once. */
  ghost predicate SignalledOut(at: Setup, b: Snapshot, a: Snapshot, channel: Channel, meanwhile: Meanwhile) {
    if channel != [] then ToldOut(at, b, a, channel)
    else exists parts, channels :: ToldInTurn(at, parts, channels, b.me.subs.Keys, b, a, meanwhile)
  }

  ghost predicate EachOnce(channels: seq<Channel>, all: set<Channel>) {
    && (forall ch :: ch in all <==> ch in channels)
    && forall i, j :: 0 <= i < j < |channels| ==> channels[i] != channels[j]
  }

  /** Closing, one subscription: presence off, and one Leave to the channel if it
      announces. */
  ghost predicate ClosedOne(b: Snapshot, a: Snapshot, channel: Channel, state: SubState) {
    && a.me == b.me.(leaves := b.me.leaves + Once(channel, state.joinLeave))
    && LeavePublished(b.server, a.server, b.me, channel, state)
  }

  /** Closing: these subscriptions in turn, others acting before each. */
  ghost predicate ClosedInTurn(at: Setup, parts: seq<Part>, channels: seq<Channel>, subs: Subscriptions, all: set<Channel>,
                               b: Snapshot, a: Snapshot, meanwhile: Meanwhile)
  {
    && Parts(at, parts, b, a, meanwhile) && EachOnce(channels, all) && |parts| == |channels|
    && forall k :: 0 <= k < |parts| ==> channels[k] in subs && ClosedOne(parts[k].mid, parts[k].a, channels[k], subs[channels[k]])
  }

  lemma NoneClosed(at: Setup, subs: Subscriptions, b: Snapshot, meanwhile: Meanwhile)
    ensures ClosedInTurn(at, [], [], subs, {}, b, b, meanwhile)
  {
  }

  lemma OneMoreClosed(at: Setup, parts: seq<Part>, channels: seq<Channel>, subs: Subscriptions, all: set<Channel>,
                      b: Snapshot, meanwhile: Meanwhile, part: Part, channel: Channel)
    requires ClosedInTurn(at, parts, channels, subs, all, b, part.b, meanwhile) && channel !in all && channel in subs
    requires Waited(at, part.b, part.mid, AtPoint(meanwhile, |parts|)) && ClosedOne(part.mid, part.a, channel, subs[channel])
    ensures ClosedInTurn(at, parts + [part], channels + [channel], subs, all + {channel}, b, part.a, meanwhile)
  {
    hide Waited, Parts, ClosedOne;
    OnePartMore(at, parts, b, part.b, meanwhile, part);
  }

  /** Closing: every subscription once, then out of the hub. */
  ghost predicate Disconnected(at: Setup, b: Snapshot, a: Snapshot, meanwhile: Meanwhile) {
    exists parts, channels, last: Snapshot ::
      && ClosedInTurn(at, parts, channels, b.me.subs, b.me.subs.Keys, b.(me := b.me.(subs := map[])), last, meanwhile)
      && a.me == last.me && a.server == last.server.(world := Forgot(last.server.world, b.me.id))
  }

  function Forgot(w: World, id: ClientId): World { World(w.conns - {id}, WithoutClient(w.rel, id), w.present) }

  /** The client's presence is said again wherever it is on, with its current info, and
      nothing else changes. */
  ghost predicate Reasserted(b: Snapshot, a: Snapshot) {
    && a.me == b.me && a.server == b.server.(presence := a.server.presence)
    && ReassertedIn(a.server.presence, b.server.presence, b.me, if b.me.authenticated then b.me.subs.Keys else {})
  }

  ghost predicate ReassertedIn(a: Presences, b: Presences, me: Mine, channels: set<Channel>) {
    forall ch :: PresentIn(a, ch) ==
      if ch in channels && ch in me.subs && me.subs[ch].presence
      then PresentIn(b, ch)[me.id := ClientInfo(me.user, me.id, me.connInfo, me.subs[ch].chanInfo)]
      else PresentIn(b, ch)
  }

  lemma NothingReasserted(me: Mine, presence: Presences)
    ensures ReassertedIn(presence, presence, me, {})
  {
  }

  lemma OneMoreReasserted(a: Presences, m: Presences, b: Presences, me: Mine, channels: set<Channel>, channel: Channel)
    requires ReassertedIn(m, b, me, channels) && channel in me.subs && channel !in channels
    requires var state := me.subs[channel];
             if state.presence then PresenceSet(a, m, channel, me.id, ClientInfo(me.user, me.id, me.connInfo, state.chanInfo)) else a == m
    ensures ReassertedIn(a, b, me, channels + {channel})
  {
  }

  /** A token about to expire, for a server that renews tokens itself. */
  ghost predicate Due(at: Setup, me: Mine, now: int) {
    at.settings.hasRefreshProxy && me.authenticated && 0 < me.expireAt <= now + at.settings.presencePing
  }

  /** What the refresh proxy makes of it: the connection renewed, or a reason to close. */
  ghost function Renewed(me: Mine, proxy: ProxyResult<Renewal>): Mine {
    if proxy.ProxyOk? && !proxy.result.expired then
      me.(connInfo := if proxy.result.info.Some? then proxy.result.info else me.connInfo,
          expireAt := if proxy.result.expireAt > 0 then proxy.result.expireAt else me.expireAt)
    else me
  }

  ghost function RenewalVerdict(proxy: ProxyResult<Renewal>, now: int): Option<Disconnect> {
    match proxy
    case ProxyOk(c) => if c.expired || c.expireAt <= 0 || c.expireAt <= now then Some(EXPIRED) else None
    case ProxyDisconnect(d) => Some(d)
    case _ => Some(SERVER_ERROR)
  }

  /** Why the expiry timer closes a connection, if it does. */
  ghost function ExpiryVerdict(me: Mine, now: int): Option<Disconnect> {
    if !me.authenticated then None
    else if Late(me.expireAt, now) then Some(EXPIRED)
    else if exists ch :: ch in me.subs && Late(me.subs[ch].expireAt, now) then Some(SUB_EXPIRED)
    else None
  }

  ghost predicate ExpiryDone(at: Setup, b: Snapshot, a: Snapshot, proxy: ProxyResult<Renewal>, now: int, open: bool) {
    var verdict := if Due(at, b.me, now) && RenewalVerdict(proxy, now).Some? then RenewalVerdict(proxy, now) else ExpiryVerdict(a.me, now);
    && a.me == (if Due(at, b.me, now) then Renewed(b.me, proxy) else b.me)
    && (open <==> verdict == None)
    && (open ==> a.server == b.server)
    && (verdict.Some? ==> Queued(at, b.server, a.server, Close(verdict.value)))
  }

  /** The control signals the reader has not taken yet. */
  ghost function Waiting(at: Setup, b: Server): seq<Signal> {
    if at.tx in b.signals then b.signals[at.tx].pending else []
  }

  /** The first waiting signal is taken. */
  ghost predicate Taken(at: Setup, b: Server, a: Server) {
    && Waiting(at, b) != [] && at.tx in b.signals
    && a == b.(signals := b.signals[at.tx := b.signals[at.tx].(pending := Waiting(at, b)[1..])])
  }

  /** What a control signal leads to: out of a channel and told so, or closed. */
  ghost predicate ActedOn(at: Setup, b: Snapshot, a: Snapshot, signal: Signal, meanwhile: Meanwhile, open: bool) {
    match signal
    case UnsubscribeSignal(channel) => open && SignalledOut(at, b, a, channel, meanwhile)
    case DisconnectSignal(d) => !open && a.me == b.me && Queued(at, b.server, a.server, Close(d))
  }

  /** The next control signal, if one is waiting. */
  ghost predicate SignalDone(at: Setup, b: Snapshot, a: Snapshot, meanwhile: Meanwhile, open: bool) {
    if Waiting(at, b.server) == [] then open && a == b
    else exists m: Snapshot ::
           Taken(at, b.server, m.server) && m.me == b.me && ActedOn(at, m, a, Waiting(at, b.server)[0], meanwhile, open)
  }
}
