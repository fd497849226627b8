/** The memory engine and the node, driven one lock-protected section at a time, run the
    recovery protocol: whatever they do on a channel, as one connection sees it, is a
    run of `RecoveryProtocol`, so what is proved there holds of them. */
module Simulation {
  import opened Common
  import opened Types
  import opened SeqGen
  import opened StreamModel
  import opened Memory
  import opened HubModel
  import opened NodeModel
  import P = RecoveryProtocol

  /** What the connection has done with the channel. */
  datatype View = NotIn | In | Seen(request: P.Request, answer: seq<Publication>, top: StreamPosition)

  /** A section some task runs. */
  datatype Op =
    | Append(entry: Entry, size: nat, lifetime: nat, now: int, epoch: Epoch)
    | Snapshot(n: nat)
    | Deliver(n: nat)
    | EnterHub
    | ReadHistory(request: P.Request, now: int, epoch: Epoch)
    | LeaveHub
    | OtherReads(now: int, epoch: Epoch)
    | HistoryRemoved
    | Dropped
    | WriterTakes(n: nat, gone: bool)

  /** The publications pushed on a channel, in queue order. */
  function LivePublications(items: seq<Out<WireFrame>>, channel: Channel): seq<Publication> {
    if items == [] then []
    else LivePublications(items[..|items| - 1], channel) + LiveIn(items[|items| - 1], channel)
  }

  function LiveIn(item: Out<WireFrame>, channel: Channel): seq<Publication> {
    if item.Frame? && item.frame.body.Pushed? && item.frame.body.push.PublicationPush? && item.frame.body.push.channel == channel
    then [item.frame.body.push.publication] else []
  }

  lemma LiveSnoc(items: seq<Out<WireFrame>>, item: Out<WireFrame>, channel: Channel)
    ensures LivePublications(items + [item], channel) == LivePublications(items, channel) + LiveIn(item, channel)
  {
    assert (items + [item])[..|items|] == items;
  }

  function PhaseOf(snapshot: Option<bool>): P.Phase {
    match snapshot
    case None => P.Appended
    case Some(included) => P.Picked(included)
  }

  ghost function OnWire(offered: seq<nat>, pubs: seq<Publication>, useSeqGen: bool): seq<Publication>
    requires forall i :: 0 <= i < |offered| ==> offered[i] < |pubs|
  {
    seq(|offered|, i requires 0 <= i < |offered| => OnTheWire(pubs[offered[i]], useSeqGen))
  }

  /** Publication `n` of the protocol's list is the `n`th the engine routed. */
  ghost predicate Routed(published: seq<P.Place>, logs: map<Epoch, seq<Entry>>, pubs: seq<Publication>) {
    && |pubs| == |published|
    && forall n :: 0 <= n < |pubs| ==> PlacedAt(published[n], logs, pubs[n])
  }

  ghost predicate PlacedAt(place: P.Place, logs: map<Epoch, seq<Entry>>, p: Publication) {
    place.epoch in logs && 1 <= place.offset <= |logs[place.epoch]| && p == At(logs[place.epoch], place.offset - 1)
  }

  ghost predicate SameFlights(phases: map<nat, P.Phase>, flights: map<nat, Option<bool>>) {
    phases.Keys == flights.Keys && forall n :: n in flights ==> phases[n] == PhaseOf(flights[n])
  }

  ghost predicate SameView(sub: P.Sub, view: View) {
    match view
    case NotIn => sub.Idle?
    case In => sub.Entered?
    case Seen(request, answer, top) => sub.Active? && sub.request == request && sub.answer == answer && sub.top == top
  }

  /** Everything offered is in the queue, in order. */
  ghost predicate SameQueue(offered: seq<nat>, pubs: seq<Publication>, live: seq<Publication>, useSeqGen: bool) {
    && (forall i :: 0 <= i < |offered| ==> offered[i] < |pubs|)
    && live == OnWire(offered, pubs, useSeqGen)
  }

  // ---- the protocol's steps, one more at a time ----

  lemma Then(steps: seq<P.Step>, s: P.State, step: P.Step) returns (steps': seq<P.Step>, s': P.State)
    requires P.Run(steps) == Some(s) && P.Enabled(s, step)
    ensures s' == P.Apply(s, step) && P.Run(steps') == Some(s')
  {
    steps', s' := steps + [step], P.Apply(s, step);
    assert steps'[..|steps|] == steps;
  }

  /** What a lazily expiring engine finds is the stream after an expiry of the protocol. */
  lemma Expired(steps: seq<P.Step>, s: P.State, live: Option<Stream>) returns (steps': seq<P.Step>, s': P.State)
    requires P.Run(steps) == Some(s)
    requires live == s.stream || live == None || (s.stream.Some? && live == Some(DropAll(s.stream.value)))
    ensures P.Run(steps') == Some(s') && s' == s.(stream := live)
  {
    if live == s.stream {
      steps', s' := steps, s;
    } else if live == None {
      steps', s' := Then(steps, s, P.StreamVanishes);
    } else {
      steps', s' := Then(steps, s, P.PublicationsExpire);
    }
  }

  lemma LiveIsExpiry(engine: MemoryEngine, channel: Channel, now: int)
    ensures var s := if channel in engine.streams then Some(engine.streams[channel]) else None;
            var live := engine.LiveAt(channel, now);
            live == s || live == None || (s.Some? && live == Some(DropAll(s.value)))
  {
  }

  /** The publications of a run keep their places when the log grows. */
  lemma AppendRouted(s: P.State, pubs: seq<Publication>, entry: Entry, size: nat, epoch: Epoch, p: Publication)
    requires P.Inv(s) && Routed(s.published, s.logs, pubs) && P.FreshEpoch(s, epoch)
    requires p == At(OrFresh(s.stream, epoch).log + [entry], |OrFresh(s.stream, epoch).log|)
    ensures var t := P.Apply(s, P.Publish(entry, size, epoch));
            Routed(t.published, t.logs, pubs + [p]) && t.logs.Keys <= s.logs.Keys + {epoch}
  {
    var t := P.Apply(s, P.Publish(entry, size, epoch));
    forall n | 0 <= n < |pubs| ensures PlacedAt(t.published[n], t.logs, pubs[n]) {
      assert PlacedAt(s.published[n], s.logs, pubs[n]);
      assert t.published[n] == s.published[n];
    }
  }

  /** A new, empty log leaves all publications where they were. */
  lemma TouchRouted(s: P.State, pubs: seq<Publication>, epoch: Epoch)
    requires P.Inv(s) && Routed(s.published, s.logs, pubs) && P.FreshEpoch(s, epoch)
    ensures var t := P.Touch(s, epoch); Routed(t.published, t.logs, pubs)
  {
    var t := P.Touch(s, epoch);
    forall n | 0 <= n < |pubs| ensures PlacedAt(t.published[n], t.logs, pubs[n]) {
      assert PlacedAt(s.published[n], s.logs, pubs[n]);
    }
  }

  lemma FlightsMove(phases: map<nat, P.Phase>, flights: map<nat, Option<bool>>, n: nat, now: Option<bool>)
    requires SameFlights(phases, flights)
    ensures SameFlights(phases[n := PhaseOf(now)], flights[n := now]) && SameFlights(phases - {n}, flights - {n})
  {
  }

  lemma OfferedGrows(offered: seq<nat>, pubs: seq<Publication>, more: seq<Publication>, live: seq<Publication>, useSeqGen: bool)
    requires SameQueue(offered, pubs, live, useSeqGen)
    ensures SameQueue(offered, pubs + more, live, useSeqGen)
  {
    assert OnWire(offered, pubs + more, useSeqGen) == OnWire(offered, pubs, useSeqGen);
  }

  lemma OfferedSnoc(offered: seq<nat>, pubs: seq<Publication>, live: seq<Publication>, useSeqGen: bool, n: nat)
    requires SameQueue(offered, pubs, live, useSeqGen) && n < |pubs|
    ensures SameQueue(offered + [n], pubs, live + [OnTheWire(pubs[n], useSeqGen)], useSeqGen)
  {
    assert OnWire(offered + [n], pubs, useSeqGen) == OnWire(offered, pubs, useSeqGen) + [OnTheWire(pubs[n], useSeqGen)];
  }

  /** An append of an engine that found `live`, as steps of the protocol. */
  lemma AppendSteps(steps: seq<P.Step>, s: P.State, live: Option<Stream>, pubs: seq<Publication>, entry: Entry, size: nat, epoch: Epoch)
    returns (steps': seq<P.Step>, s': P.State)
    requires P.Run(steps) == Some(s) && Routed(s.published, s.logs, pubs) && epoch !in s.logs
    requires live == s.stream || live == None || (s.stream.Some? && live == Some(DropAll(s.stream.value)))
    ensures P.Run(steps') == Some(s') && s'.stream == Some(StreamModel.Append(OrFresh(live, epoch), entry, size))
    ensures s'.registered == s.registered && s'.inHub == s.inHub && s'.sub == s.sub && s'.offered == s.offered
    ensures s'.flights == s.flights[|pubs| := P.Appended] && s'.logs.Keys <= s.logs.Keys + {epoch}
    ensures Routed(s'.published, s'.logs, pubs + [At(OrFresh(live, epoch).log + [entry], |OrFresh(live, epoch).log|)])
  {
    hide P.Run, P.Inv, Routed, PlacedAt;
    RoutedCount(s.published, s.logs, pubs);
    var middle;
    steps', middle := Expired(steps, s, live);
    P.RunKeepsInv(steps');
    AppendRouted(middle, pubs, entry, size, epoch, At(OrFresh(live, epoch).log + [entry], |OrFresh(live, epoch).log|));
    steps', s' := Then(steps', middle, P.Publish(entry, size, epoch));
    KeptByExpiry(s, live, epoch);
  }

  lemma RoutedCount(published: seq<P.Place>, logs: map<Epoch, seq<Entry>>, pubs: seq<Publication>)
    requires Routed(published, logs, pubs)
    ensures |published| == |pubs|
  {
  }

  lemma KeptByExpiry(s: P.State, live: Option<Stream>, epoch: Epoch)
    ensures P.Touch(s.(stream := live), epoch).logs.Keys <= s.logs.Keys + {epoch}
  {
  }

  /** A read of an engine that found `live`; `request` is this connection's, if it is one. */
  lemma ReadSteps(steps: seq<P.Step>, s: P.State, live: Option<Stream>, pubs: seq<Publication>, request: Option<P.Request>, epoch: Epoch)
    returns (steps': seq<P.Step>, s': P.State)
    requires P.Run(steps) == Some(s) && Routed(s.published, s.logs, pubs) && epoch !in s.logs
    requires live == s.stream || live == None || (s.stream.Some? && live == Some(DropAll(s.stream.value)))
    requires request.Some? ==> s.sub.Entered?
    ensures P.Run(steps') == Some(s') && s'.stream == Some(OrFresh(live, epoch))
    ensures s'.registered == s.registered && s'.inHub == s.inHub && s'.offered == s.offered && s'.flights == s.flights
    ensures s'.logs.Keys <= s.logs.Keys + {epoch} && Routed(s'.published, s'.logs, pubs)
    ensures match request
            case None => s'.sub == s.sub
            case Some(r) =>
              && s'.sub.Active? && s'.sub.request == r && s'.sub.top == OrFresh(live, epoch).Position()
              && s'.sub.answer == if r.Recover? then OrFresh(live, epoch).Since(r.offset) else OrFresh(live, epoch).Retained()
  {
    hide P.Run, P.Inv, Routed, PlacedAt;
    var middle;
    steps', middle := Expired(steps, s, live);
    P.RunKeepsInv(steps');
    TouchRouted(middle, pubs, epoch);
    steps', s' := Then(steps', middle, if request.Some? then P.ReadHistory(request.value, epoch) else P.SomeoneReads(epoch));
    KeptByExpiry(s, live, epoch);
  }

  /** What there is to see: the channel's stream and ring, this connection's place in the
      hub and its queue, and how far the publishes and the view of the channel are. */
  datatype Sight = Sight(stream: Option<Stream>, ring: Option<Ring>, registered: bool, inHub: bool,
                         live: seq<Publication>, full: bool,
                         pubs: seq<Publication>, flights: map<nat, Option<bool>>, view: View)
  {
    /** The stream a reader finds, expired as far as it is due. */
    ghost function Found(now: int, epoch: Epoch): Stream {
      OrFresh(if stream.Some? && ring.Some? then Memory.Live(stream.value, ring.value, now) else None, epoch)
    }
  }

  /** What an operation does; one whose turn has not come does nothing. */
  ghost predicate Took(b: Sight, a: Sight, op: Op, useSeqGen: bool) {
    match op
    case Append(entry, size, _, now, epoch) => Appended(b, a, entry, size, now, epoch)
    case Snapshot(n) =>
      if n in b.flights && b.flights[n] == None then a == b.(flights := b.flights[n := Some(b.registered && b.inHub)]) else a == b
    case Deliver(n) => if n in b.flights && b.flights[n].Some? && n < |b.pubs| then DeliveredTo(b, a, n, useSeqGen) else a == b
    case EnterHub => if b.view == NotIn then a == b.(view := In, inHub := true) else a == b
    case ReadHistory(request, now, epoch) =>
      if b.view == In then exists m :: Touched(b, m, now, epoch) && a == Answered(m, request, b.Found(now, epoch)) else a == b
    case LeaveHub => if b.view.Seen? then a == b.(view := NotIn, inHub := false) else a == b
    case OtherReads(now, epoch) => Touched(b, a, now, epoch)
    case HistoryRemoved => a == b.(stream := None, ring := None)
    case Dropped => a == b.(registered := false, inHub := false)
    case WriterTakes(_, gone) => a == b.(full := a.full) && (gone ==> a.full)
  }

  /** Reading expires what is due and creates a stream that is missing. */
  ghost predicate Touched(b: Sight, a: Sight, now: int, epoch: Epoch) {
    a == b.(stream := Some(b.Found(now, epoch)), ring := a.ring)
  }

  /** The answer is all that is retained, or what of it follows the offset asked for. */
  ghost function Answered(b: Sight, request: P.Request, s: Stream): Sight {
    b.(view := Seen(request, if request.Recover? then s.Since(request.offset) else s.Retained(), s.Position()))
  }

  /** One publication more, with the newest offset, and its publish under way. */
  ghost predicate Appended(b: Sight, a: Sight, entry: Entry, size: nat, now: int, epoch: Epoch) {
    exists m ::
      Stored(b, m, entry, size, now, epoch) && a == Started(m, Publication(entry.data, entry.info, |b.Found(now, epoch).log| + 1, 0, 0))
  }

  ghost predicate Stored(b: Sight, a: Sight, entry: Entry, size: nat, now: int, epoch: Epoch) {
    a == b.(stream := Some(StreamModel.Append(b.Found(now, epoch), entry, size)), ring := a.ring)
  }

  function Started(b: Sight, p: Publication): Sight {
    b.(pubs := b.pubs + [p], flights := b.flights[|b.pubs| := None])
  }

  function Landed(b: Sight, n: nat): Sight {
    b.(flights := b.flights - {n})
  }

  /** The connection is sent the publication if it was among those to be, or dropped if
      its queue is full. */
  ghost predicate DeliveredTo(b: Sight, a: Sight, n: nat, useSeqGen: bool)
    requires n in b.flights && b.flights[n].Some? && n < |b.pubs|
  {
    if !b.flights[n].value then a == Landed(b, n)
    else exists m :: OfferedOnce(b, m, b.pubs[n], useSeqGen) && a == Landed(m, n)
  }

  ghost predicate OfferedOnce(b: Sight, a: Sight, p: Publication, useSeqGen: bool) {
    a == if b.full then b.(registered := false, inHub := false) else b.(live := b.live + [OnTheWire(p, useSeqGen)], full := a.full)
  }

  /** Operations one after the other. */
  ghost predicate TookAll(sights: seq<Sight>, ops: seq<Op>, useSeqGen: bool) {
    |sights| == |ops| + 1 && forall i :: 0 <= i < |ops| ==> Took(sights[i], sights[i + 1], ops[i], useSeqGen)
  }

  /** One channel, and one connection's part in it. */
  class ChannelRun {
    const node: Node
    const engine: MemoryEngine
    const channel: Channel
    const handle: ClientHandle

    /** The publications appended so far, as routed; which of them are under way, and
        whether a snapshot was taken and has this connection in it. */
    var pubs: seq<Publication>
    var flights: map<nat, Option<bool>>
    var view: View

    ghost var steps: seq<P.Step>
    ghost var s: P.State

    ghost function StreamHere(): Option<Stream>
      reads engine`streams
    {
      if channel in engine.streams then Some(engine.streams[channel]) else None
    }

    ghost function Live(): seq<Publication>
      reads node`queues
    {
      if handle.tx in node.queues then LivePublications(node.queues[handle.tx].items, channel) else []
    }

    ghost function Look(): Sight
      reads this`pubs, this`flights, this`view, node`queues, node.hub`conns, node.hub`rel, engine`streams, engine`history
    {
      Sight(StreamHere(), if channel in engine.history then Some(engine.history[channel]) else None,
            handle.id in node.hub.conns, (handle.id, channel) in node.hub.rel,
            Live(), handle.tx in node.queues && Full(node.queues[handle.tx]), pubs, flights, view)
    }

    ghost predicate ServerValid()
      reads node, node.hub, node.hub.shards, engine
    {
      && node.Valid() && engine.HistoryValid() && handle.tx in node.queues
      && (handle.id in node.hub.conns ==> node.hub.conns[handle.id] == handle)
    }

    /** The protocol's state is this server's. */
    ghost predicate Same()
      reads this, node, node.hub, engine
    {
      && s.stream == StreamHere()
      && (s.registered <==> handle.id in node.hub.conns) && (s.inHub <==> (handle.id, channel) in node.hub.rel)
      && Routed(s.published, s.logs, pubs) && SameFlights(s.flights, flights) && SameView(s.sub, view)
      && SameQueue(s.offered, pubs, Live(), node.useSeqGen)
    }

    ghost predicate Valid()
      reads this, node, node.hub, node.hub.shards, engine
    {
      ServerValid() && P.Run(steps) == Some(s) && Same()
    }

    constructor (node: Node, engine: MemoryEngine, channel: Channel, handle: ClientHandle)
      requires node.Valid() && engine.HistoryValid() && handle.tx in node.queues && node.queues[handle.tx].items == []
      requires handle.id in node.hub.conns && node.hub.conns[handle.id] == handle
      requires (handle.id, channel) !in node.hub.rel && channel !in engine.streams
      ensures Valid() && s == P.INIT && view == NotIn && flights == map[] && pubs == []
      ensures this.node == node && this.engine == engine && this.channel == channel && this.handle == handle
    {
      this.node, this.engine, this.channel, this.handle := node, engine, channel, handle;
      pubs, flights, view := [], map[], NotIn;
      steps, s := [], P.INIT;
    }

    // ---- publishing ----

    /** The first half of a publish: the append, under the history lock. */
    method Append(entry: Entry, size: nat, lifetime: nat, now: int, epoch: Epoch)
      requires Valid() && epoch !in s.logs
      modifies this`pubs, this`flights, this`steps, this`s, engine`history, engine`streams
      ensures Valid() && s.logs.Keys <= old(s.logs.Keys) + {epoch}
      ensures Appended(old(Look()), Look(), entry, size, now, epoch)
    {
      hide P.Run, SameQueue, SameView, SameFlights, Routed, P.Apply, ServerValid, StreamModel.Append, OrFresh, At, Live, Look, Started,
           Stored, Sight.Found;
      ghost var b := Look();
      LiveIsExpiry(engine, channel, now);
      FlightsMove(s.flights, flights, |pubs|, None);
      steps, s := AppendSteps(steps, s, engine.LiveAt(channel, now), pubs, entry, size, epoch);
      var p := AppendToEngine(entry, size, lifetime, now, epoch);
      OfferedGrows(s.offered, pubs, [p], Live(), node.useSeqGen);
      ghost var m := Look();
      assert Stored(b, m, entry, size, now, epoch);
      StartFlight(p);
    }

    method StartFlight(p: Publication)
      modifies this`pubs, this`flights
      ensures pubs == old(pubs) + [p] && flights == old(flights)[|old(pubs)| := None]
      ensures Look() == Started(old(Look()), p)
    {
      flights := flights[|pubs| := None];
      pubs := pubs + [p];
    }

    method EndFlight(n: nat)
      modifies this`flights
      ensures flights == old(flights) - {n} && Look() == Landed(old(Look()), n)
    {
      flights := flights - {n};
    }

    method AppendToEngine(entry: Entry, size: nat, lifetime: nat, now: int, epoch: Epoch) returns (p: Publication)
      requires ServerValid()
      modifies engine`history, engine`streams
      ensures ServerValid()
      ensures var before := OrFresh(old(engine.LiveAt(channel, now)), epoch);
              && StreamHere() == Some(StreamModel.Append(before, entry, size)) && p == At(before.log + [entry], |before.log|)
              && p == Publication(entry.data, entry.info, p.offset, 0, 0)
              && Stored(old(Look()), Look(), entry, size, now, epoch) && p.offset == |old(Look()).Found(now, epoch).log| + 1
    {
      hide NodeModel.Node.Valid, Memory.Represents, OrFresh, Memory.Live;
      var offset := engine.AddToHistory(channel, entry, size, lifetime, now, epoch);
      p := Publication(entry.data, entry.info, offset, 0, 0);
    }

    /** The second half starts with the channel's registered subscribers. */
    method Snapshot(n: nat)
      requires Valid() && n in flights && flights[n] == None
      modifies this`flights, this`steps, this`s
      ensures Valid() && s.logs == old(s.logs)
      ensures Look() == old(Look()).(flights := old(flights)[n := Some(old(Look()).registered && old(Look()).inHub)])
    {
      hide P.Run, SameQueue, SameView, Routed, SameFlights, NodeModel.Node.Valid, HubModel.Hub.Valid, Live;
      var included := Reached();
      Unpicked(n);
      FlightsMove(s.flights, flights, n, Some(included));
      steps, s := Then(steps, s, P.Pick(n));
      flights := flights[n := Some(included)];
    }

    lemma Unpicked(n: nat)
      requires SameFlights(s.flights, flights) && n in flights
      ensures n in s.flights && s.flights[n] == PhaseOf(flights[n])
    {
    }

    method Reached() returns (included: bool)
      requires ServerValid()
      ensures included <==> handle.id in node.hub.conns && (handle.id, channel) in node.hub.rel
    {
      hide HubModel.Hub.ShardsValid, HubModel.Hub.UsersInverse;
      var handles := node.hub.Subscribers(channel);
      Included(handles);
      included := handle in handles;
    }

    lemma Included(handles: seq<ClientHandle>)
      requires ServerValid() && Lists(handles, SubscribersOf(node.hub.rel, channel), node.hub.conns)
      ensures handle in handles <==> handle.id in node.hub.conns && (handle.id, channel) in node.hub.rel
    {
      hide HubModel.Hub.Valid;
      node.ReachedIsListed(channel, handles);
    }

    /** Then the frame is offered to this connection, if it is among them. */
    method Deliver(n: nat)
      requires Valid() && n in flights && flights[n].Some? && n < |pubs|
      modifies this`flights, this`steps, this`s, node`queues, node`slowCloses,
               node.hub`conns, node.hub`users, node.hub`rel, node.hub.shards
      ensures Valid() && s.logs == old(s.logs)
      ensures DeliveredTo(old(Look()), Look(), n, node.useSeqGen)
    {
      hide Valid, SameFlights;
      if flights[n].value {
        OfferHere(n);
      } else {
        SkipHere(n);
      }
    }

    method SkipHere(n: nat)
      requires Valid() && n in flights && flights[n] == Some(false)
      modifies this`flights, this`steps, this`s
      ensures Valid() && s.logs == old(s.logs)
      ensures Look() == Landed(old(Look()), n)
    {
      hide P.Run, SameView, Routed, SameQueue, SameFlights, ServerValid, Live;
      Unpicked(n);
      FlightsMove(s.flights, flights, n, None);
      steps, s := Then(steps, s, P.Skip(n));
      flights := flights - {n};
    }

    method OfferHere(n: nat)
      requires Valid() && n in flights && flights[n] == Some(true) && n < |pubs|
      modifies this`flights, this`steps, this`s, node`queues, node`slowCloses,
               node.hub`conns, node.hub`users, node.hub`rel, node.hub.shards
      ensures Valid() && s.logs == old(s.logs)
      ensures exists m :: OfferedOnce(old(Look()), m, pubs[n], node.useSeqGen) && Look() == Landed(m, n)
    {
      hide P.Run, SameView, Routed, SameQueue, SameFlights, ServerValid, Live, Look, OnTheWire, OfferedOnce, Landed;
      Unpicked(n);
      FlightsMove(s.flights, flights, n, None);
      var slow := OfferFrame(n);
      ghost var m := Look();
      if slow {
        steps, s := Then(steps, s, P.OfferTooSlow(n));
      } else {
        OfferedSnoc(s.offered, pubs, old(Live()), node.useSeqGen, n);
        steps, s := Then(steps, s, P.Offer(n));
      }
      EndFlight(n);
    }

    method OfferFrame(n: nat) returns (ghost slow: bool)
      requires ServerValid() && n < |pubs|
      modifies node`queues, node`slowCloses, node.hub`conns, node.hub`users, node.hub`rel, node.hub.shards
      ensures ServerValid()
      ensures slow == old(Look()).full
      ensures OfferedOnce(old(Look()), Look(), pubs[n], node.useSeqGen)
      ensures if slow then
                && Live() == old(Live()) && handle.id !in node.hub.conns && (handle.id, channel) !in node.hub.rel
              else
                && Live() == old(Live()) + [OnTheWire(pubs[n], node.useSeqGen)]
                && node.hub.conns == old(node.hub.conns) && node.hub.rel == old(node.hub.rel)
    {
      hide NodeModel.Node.Valid, LivePublications, OnTheWire;
      var frames := FramesOf(LivePush(channel, pubs[n], node.useSeqGen));
      slow := TooSlow(handle, frames, node.queues);
      FramesFit(node.queues[handle.tx], LivePush(channel, pubs[n], node.useSeqGen), handle.proto);
      node.OfferTo(handle, frames);
      LiveSnoc(old(node.queues[handle.tx].items), Frame(frames.For(handle.proto).value), channel);
    }

    // ---- subscribing ----

    method Enter()
      requires Valid() && view == NotIn
      modifies this`view, this`steps, this`s, node.hub`rel, node.hub.shards
      ensures Valid() && s.logs == old(s.logs)
      ensures Look() == old(Look()).(view := In, inHub := true)
    {
      hide P.Run, Routed, SameQueue, SameFlights, NodeModel.Node.Valid, HubModel.Hub.Valid, Live;
      node.Subscribe(handle.id, channel);
      steps, s := Then(steps, s, P.EnterHub);
      view := In;
    }

    method Leave()
      requires Valid() && view.Seen?
      modifies this`view, this`steps, this`s, node.hub`rel, node.hub.shards
      ensures Valid() && s.logs == old(s.logs)
      ensures Look() == old(Look()).(view := NotIn, inHub := false)
    {
      hide P.Run, Routed, SameQueue, SameFlights, NodeModel.Node.Valid, HubModel.Hub.Valid, Live;
      node.Unsubscribe(handle.id, channel);
      steps, s := Then(steps, s, P.Leave);
      view := NotIn;
    }

    /** The read of a (re)subscribe: what a SUBSCRIBE is answered from. */
    method ReadFor(request: P.Request, now: int, epoch: Epoch)
      requires Valid() && view == In && epoch !in s.logs
      modifies this`view, this`steps, this`s, engine`history, engine`streams
      ensures Valid() && view.Seen? && s.logs.Keys <= old(s.logs.Keys) + {epoch}
      ensures exists m :: Touched(old(Look()), m, now, epoch) && Look() == Answered(m, request, old(Look()).Found(now, epoch))
    {
      hide P.Run, SameQueue, Routed, P.Apply, SameFlights, ServerValid, OrFresh, Live, Sight.Found, Touched;
      LiveIsExpiry(engine, channel, now);
      steps, s := ReadSteps(steps, s, engine.LiveAt(channel, now), pubs, Some(request), epoch);
      var answer, top := ReadEngine(request, now, epoch);
      ghost var m := Look();
      view := Seen(request, answer, top);
      assert Look() == Answered(m, request, old(Look()).Found(now, epoch));
    }

    method ReadEngine(request: P.Request, now: int, epoch: Epoch) returns (answer: seq<Publication>, top: StreamPosition)
      requires ServerValid()
      modifies engine`history, engine`streams
      ensures ServerValid()
      ensures Touched(old(Look()), Look(), now, epoch) && OrFresh(old(engine.LiveAt(channel, now)), epoch) == old(Look()).Found(now, epoch)
      ensures var here := OrFresh(old(engine.LiveAt(channel, now)), epoch);
              && StreamHere() == Some(here) && top == here.Position()
              && answer == if request.Recover? then here.Since(request.offset) else here.Retained()
    {
      hide NodeModel.Node.Valid, Memory.Represents, OrFresh, Memory.Live;
      match request
      case Plain => answer, top := engine.History(channel, now, epoch);
      case Recover(offset, asked) => answer, top := engine.HistorySince(channel, offset, asked, now, epoch);
    }

    // ---- the rest of the server ----

    method OtherReads(now: int, epoch: Epoch)
      requires Valid() && epoch !in s.logs
      modifies this`steps, this`s, engine`history, engine`streams
      ensures Valid() && s.logs.Keys <= old(s.logs.Keys) + {epoch}
      ensures Touched(old(Look()), Look(), now, epoch)
    {
      hide P.Run, SameQueue, Routed, P.Apply, SameFlights, ServerValid, OrFresh, Live, Sight.Found, Touched, Look;
      LiveIsExpiry(engine, channel, now);
      steps, s := ReadSteps(steps, s, engine.LiveAt(channel, now), pubs, None, epoch);
      var _, _ := ReadEngine(P.Plain, now, epoch);
    }

    method RemoveHistory()
      requires Valid()
      modifies this`steps, this`s, engine`history, engine`streams
      ensures Valid() && s.logs == old(s.logs)
      ensures Look() == old(Look()).(stream := None, ring := None)
    {
      hide NodeModel.Node.Valid, P.Run, SameQueue, Memory.Represents, Routed, SameFlights, SameView;
      engine.RemoveHistory(channel);
      steps, s := Then(steps, s, P.StreamVanishes);
    }

    method Drop()
      requires Valid()
      modifies this`steps, this`s, node.hub`conns, node.hub`users, node.hub`rel, node.hub.shards
      ensures Valid() && s.logs == old(s.logs)
      ensures Look() == old(Look()).(registered := false, inHub := false)
    {
      hide NodeModel.Node.Valid, P.Run, SameQueue, Routed, SameFlights, SameView;
      node.Remove(handle.id);
      steps, s := Then(steps, s, P.DroppedElsewhere);
    }

    method WriterTakes(n: nat, gone: bool)
      requires Valid()
      modifies node`queues
      ensures Valid()
      ensures Took(old(Look()), Look(), Op.WriterTakes(n, gone), node.useSeqGen)
    {
      hide NodeModel.Node.Valid, P.Run, SameQueue, Routed, SameFlights, SameView, LivePublications;
      node.WriterTurn(handle.tx, n, gone);
    }

    // ---- whole runs ----

    /** One operation, if it can happen now. */
    method Do(op: Op)
      requires Valid() && (forall e :: e in EpochsOf(op) ==> e !in s.logs)
      modifies this, engine`history, engine`streams, node`queues, node`slowCloses, node.hub, node.hub.shards
      ensures Valid() && s.logs.Keys <= old(s.logs.Keys) + EpochsOf(op)
      ensures Took(old(Look()), Look(), op, node.useSeqGen)
    {
      hide Valid;
      match op
      case Append(entry, size, lifetime, now, epoch) => Append(entry, size, lifetime, now, epoch);
      case Snapshot(n) => if n in flights && flights[n] == None { Snapshot(n); }
      case Deliver(n) => if n in flights && flights[n].Some? && n < |pubs| { Deliver(n); }
      case EnterHub => if view == NotIn { Enter(); }
      case ReadHistory(request, now, epoch) => if view == In { ReadFor(request, now, epoch); }
      case LeaveHub => if view.Seen? { Leave(); }
      case OtherReads(now, epoch) => OtherReads(now, epoch);
      case HistoryRemoved => RemoveHistory();
      case Dropped => Drop();
      case WriterTakes(n, gone) => WriterTakes(n, gone);
    }

    /** Any operations, in any order. */
    method DoAll(ops: seq<Op>) returns (ghost sights: seq<Sight>)
      requires Valid() && s.logs == map[] && NewEpochs(ops)
      modifies this, engine`history, engine`streams, node`queues, node`slowCloses, node.hub, node.hub.shards
      ensures Valid() && TookAll(sights, ops, node.useSeqGen) && sights[0] == old(Look()) && sights[|ops|] == Look()
    {
      hide Valid, Took, Look;
      sights := [Look()];
      var i := 0;
      while i < |ops|
        invariant i <= |ops| && Valid()
        invariant forall e :: e in s.logs ==> exists j :: 0 <= j < i && e in EpochsOf(ops[j])
        invariant |sights| == i + 1 && sights[0] == old(Look()) && sights[i] == Look()
        invariant forall j :: 0 <= j < i ==> Took(sights[j], sights[j + 1], ops[j], node.useSeqGen)
      {
        Do(ops[i]);
        sights := sights + [Look()];
        i := i + 1;
      }
    }

    /** What the protocol guarantees holds of the server: once nothing is under way, a
        registered connection that was told it recovered has in its answer, or pushed to
        its queue, everything the stream has after the offset it asked for. */
    lemma NothingLost(offset: nat)
      requires Valid() && flights == map[] && handle.id in node.hub.conns && channel in engine.streams
      requires view.Seen? && view.request.Recover? && view.top.offset < TWO_64
      requires Recovered(view.answer, view.top, view.request.offset, view.request.epoch)
      requires view.request.epoch == engine.streams[channel].epoch
      requires view.request.offset < offset <= |engine.streams[channel].log|
      ensures var p := At(engine.streams[channel].log, offset - 1);
              p in view.answer || OnTheWire(p, node.useSeqGen) in Live()
    {
      hide NodeModel.Node.Valid, P.Run;
      P.RunKeepsInv(steps);
      P.NoLossWhenRecovered(steps, s, offset);
      GotHere(s, pubs, view.request.epoch, offset, node.useSeqGen);
    }
  }

  lemma GotHere(s: P.State, pubs: seq<Publication>, epoch: Epoch, offset: nat, useSeqGen: bool)
    requires s.sub.Active? && s.sub.from <= |s.offered| && P.Got(s, epoch, offset)
    requires Routed(s.published, s.logs, pubs) && forall i :: 0 <= i < |s.offered| ==> s.offered[i] < |pubs|
    ensures epoch in s.logs && 1 <= offset <= |s.logs[epoch]|
    ensures var p := At(s.logs[epoch], offset - 1);
            p in s.sub.answer || OnTheWire(p, useSeqGen) in OnWire(s.offered, pubs, useSeqGen)
  {
    if n :| n in s.offered[s.sub.from..] && n < |s.published| && s.published[n] == P.Place(epoch, offset) {
      assert PlacedAt(s.published[n], s.logs, pubs[n]);
      var i :| 0 <= i < |s.offered| && s.offered[i] == n;
      assert OnWire(s.offered, pubs, useSeqGen)[i] == OnTheWire(pubs[n], useSeqGen);
    }
  }

  /** The epoch an operation may start a stream with. */
  function EpochsOf(op: Op): set<Epoch> {
    match op
    case Append(_, _, _, _, epoch) => {epoch}
    case ReadHistory(_, _, epoch) => {epoch}
    case OtherReads(_, epoch) => {epoch}
    case _ => {}
  }

  /** No epoch is used for two streams. */
  ghost predicate NewEpochs(ops: seq<Op>) {
    forall i, j :: 0 <= i < j < |ops| ==> EpochsOf(ops[i]) !! EpochsOf(ops[j])
  }
}
