/** The reader task of a connection: `handle_socket` in
    crates/centrifugo-server/src/ws.rs, interleaved with the rest of the server. */
module SocketModel {
  import opened Common
  import opened Types
  import opened HubModel
  import opened NodeModel
  import opened StreamModel
  import opened Session
  import opened Memory
  import opened Commands
  import opened Effects
  import opened ClientModel

  /** A command of a batch, what others do before its turn comes, and its circumstances:
      the time, and the epochs of streams it may create. */
  datatype Step = Step(before: seq<Elsewhere>, cmd: Command, now: int, newEpoch: Channel -> Epoch)

  /** What others do before the replies are queued, before each deferred Join, and
      before the close. */
  datatype Waits = Waits(reply: seq<Elsewhere>, joins: Meanwhile, close: seq<Elsewhere>)

  datatype Event =
    | Batch(steps: seq<Step>, waits: Waits)
    | BadFrame
    | PresenceTick
    | ExpiryTick(proxy: ProxyResult<Renewal>, now: int)
    | SignalReady(meanwhile: Meanwhile)
    | SocketGone
    | Others(whats: seq<Elsewhere>)

  /** `ours` are the ids this connection may be given; nobody else uses them. */
  ghost predicate Fits(e: Event, ours: set<ClientId>) {
    match e
    case Batch(steps, waits) =>
      && AllForeign(waits.reply, ours) && Undisturbing(waits.joins, ours) && AllForeign(waits.close, ours)
      && forall s :: s in steps ==> StepFits(s, ours)
    case SignalReady(waits) => Undisturbing(waits, ours)
    case Others(whats) => AllForeign(whats, ours)
    case _ => true
  }

  ghost predicate StepFits(s: Step, ours: set<ClientId>) {
    AllForeign(s.before, ours) && (s.cmd.body.ConnectCmd? ==> s.cmd.body.newId in ours)
  }

  /** No CONNECT of the batch repeats an announcing channel. */
  ghost predicate NoRepeats(settings: Settings, e: Event) {
    e.Batch? ==> forall s :: s in e.steps ==> Extra(settings, s.cmd) == multiset{}
  }

  /** A command without an id, unless it expects no reply. */
  predicate LacksId(cmd: Command) { cmd.id == 0 && !cmd.body.SendCmd? }

  // ---- what a turn of the reader does ----

  /** One command of a batch: what was before, when others were done, after, and the
      outcome. */
  datatype Ran = Ran(b: Snapshot, mid: Snapshot, a: Snapshot, out: Outcome)

  ghost predicate StepDone(at: Setup, s: Step, r: Ran) {
    && Waited(at, r.b, r.mid, s.before) && AnswersOnly(r.out, s.cmd.id)
    && if LacksId(s.cmd) then r.out == Closing(BAD_REQUEST) && r.a == r.mid
       else Done(at, r.mid, r.a, s.cmd, r.out, s.now, s.newEpoch)
  }

  /** The commands of a batch in their order, one after the other, none after one that
      closes the connection. */
  ghost predicate StepsDone(at: Setup, steps: seq<Step>, ran: seq<Ran>, b: Snapshot, a: Snapshot) {
    && |ran| <= |steps|
    && (ran == [] ==> a == b)
    && (ran != [] ==> ran[0].b == b && ran[|ran| - 1].a == a)
    && (forall k :: 0 <= k < |ran| - 1 ==> ran[k].a == ran[k + 1].b && ran[k].out.disconnect == None)
    && (forall k :: 0 <= k < |ran| ==> StepDone(at, steps[k], ran[k]))
  }

  /** Their replies, in the order of the commands. */
  ghost function RepliesOf(ran: seq<Ran>): seq<Reply> {
    if ran == [] then [] else RepliesOf(ran[..|ran| - 1]) + ran[|ran| - 1].out.replies
  }

  ghost function ClosedBy(ran: seq<Ran>): Option<Disconnect> {
    if ran == [] then None else ran[|ran| - 1].out.disconnect
  }

  lemma OneStepMore(at: Setup, steps: seq<Step>, ran: seq<Ran>, b: Snapshot, r: Ran)
    requires |ran| < |steps| && StepsDone(at, steps, ran, b, r.b) && ClosedBy(ran) == None && StepDone(at, steps[|ran|], r)
    ensures StepsDone(at, steps, ran + [r], b, r.a)
  {
    hide StepDone;
    var more := ran + [r];
    assert forall k :: 0 <= k < |ran| ==> more[k] == ran[k];
    assert more[|ran|] == r;
  }

  lemma OneReplyMore(ran: seq<Ran>, r: Ran)
    ensures RepliesOf(ran + [r]) == RepliesOf(ran) + r.out.replies && ClosedBy(ran + [r]) == r.out.disconnect
  {
    assert (ran + [r])[..|ran|] == ran;
  }

  /** The replies, if any, are queued in one frame, and nothing is unsent any more. */
  ghost predicate RepliesQueued(at: Setup, b: Snapshot, a: Snapshot, replies: seq<Reply>) {
    if replies == [] then a == b
    else a.me == b.me.(unsent := {}) && Queued(at, b.server, a.server, Frame(WireFrame(at.proto, Replies(replies))))
  }

  /** The close, if there is one, is the last thing queued. */
  ghost predicate ClosedAtLast(at: Setup, b: Snapshot, a: Snapshot, disconnect: Option<Disconnect>) {
    if disconnect == None then a == b else a.me == b.me && Queued(at, b.server, a.server, Close(disconnect.value))
  }

  /** What follows the replies: the deferred Joins, and the close. */
  ghost predicate Followed(at: Setup, b: Snapshot, a: Snapshot, disconnect: Option<Disconnect>, waits: Waits) {
    exists joined, rested ::
      Flushed(at, b, joined, waits.joins) && Waited(at, joined, rested, waits.close) && ClosedAtLast(at, rested, a, disconnect)
  }

  /** The answer to a batch: the replies, then what follows them. Replies that the
      writer is not there for end the connection, and no Join follows. */
  ghost predicate AnswerDone(at: Setup, b: Snapshot, a: Snapshot, replies: seq<Reply>, disconnect: Option<Disconnect>, waits: Waits,
                             open: bool, lost: bool)
  {
    exists waited ::
      && Waited(at, b, waited, waits.reply)
      && lost == (replies != [] && waited.server.WriterGone(at.tx))
      && open == (!lost && disconnect == None)
      && if lost then a == waited.(server := a.server) && Queued(at, waited.server, a.server, Frame(WireFrame(at.proto, Replies(replies))))
         else exists replied :: RepliesQueued(at, waited, replied, replies) && Followed(at, replied, a, disconnect, waits)
  }

  ghost predicate BatchDone(at: Setup, b: Snapshot, a: Snapshot, steps: seq<Step>, waits: Waits, open: bool, lost: bool) {
    exists ran, m ::
      && StepsDone(at, steps, ran, b, m) && (ClosedBy(ran) == None ==> |ran| == |steps|)
      && AnswerDone(at, m, a, RepliesOf(ran), ClosedBy(ran), waits, open, lost)
  }

  /** What a turn of the reader does; not `open` ends its loop, `lost` if the writer is
      gone and replies with it. */
  ghost predicate TurnDone(at: Setup, b: Snapshot, a: Snapshot, e: Event, open: bool, lost: bool) {
    match e
    case Batch(steps, waits) => BatchDone(at, b, a, steps, waits, open, lost)
    case BadFrame => !open && !lost && a.me == b.me && Queued(at, b.server, a.server, Close(BAD_REQUEST))
    case PresenceTick => open && !lost && Reasserted(b, a)
    case ExpiryTick(proxy, now) => !lost && ExpiryDone(at, b, a, proxy, now, open)
    case SignalReady(meanwhile) => !lost && SignalDone(at, b, a, meanwhile, open)
    case SocketGone => !open && !lost && a == b
    case Others(whats) => open && !lost && Waited(at, b, a, whats)
  }

  datatype Turn = Turn(b: Snapshot, a: Snapshot, open: bool, lost: bool)

  /** One turn for every event in order, none after one that ends the loop. */
  ghost predicate TurnsDone(at: Setup, events: seq<Event>, turns: seq<Turn>, b: Snapshot, a: Snapshot) {
    && |turns| <= |events|
    && (turns == [] ==> a == b)
    && (turns != [] ==> turns[0].b == b && turns[|turns| - 1].a == a)
    && (forall k :: 0 <= k < |turns| - 1 ==> turns[k].a == turns[k + 1].b && turns[k].open)
    && (forall k :: 0 <= k < |turns| ==> TurnDone(at, turns[k].b, turns[k].a, events[k], turns[k].open, turns[k].lost))
  }

  ghost predicate StillOpen(turns: seq<Turn>) { turns == [] || turns[|turns| - 1].open }

  ghost predicate LostReplies(turns: seq<Turn>) { turns != [] && turns[|turns| - 1].lost }

  lemma OneTurnMore(at: Setup, events: seq<Event>, turns: seq<Turn>, b: Snapshot, t: Turn)
    requires |turns| < |events| && TurnsDone(at, events, turns, b, t.b) && StillOpen(turns)
    requires TurnDone(at, t.b, t.a, events[|turns|], t.open, t.lost)
    ensures TurnsDone(at, events, turns + [t], b, t.a)
  {
    hide TurnDone;
  }

  // ---- the reader ----

  /** One command, after whatever happened before its turn. */
  method HandleStep(client: Client, s: Step, ghost ours: set<ClientId>) returns (out: Outcome, ghost mid: Snapshot)
    requires client.Valid() && client.Ours(ours) && StepFits(s, ours)
    modifies client, client.engine, client.node, client.node.hub, client.node.hub.shards
    ensures client.Valid() && client.Ours(ours)
    ensures client.unsent == old(client.unsent) + ReportedByAll(out.replies)
    ensures client.surplus == old(client.surplus) || client.surplus == Extra(client.settings, s.cmd)
    ensures StepDone(client.Setting(), s, Ran(old(client.Now()), mid, client.Now(), out))
  {
    hide Client.Valid, Done, ReportedByAll, NoTrace, Extra, AllForeign, Between, Client.There;
    client.Yield(s.before, ours);
    mid := client.Now();
    if LacksId(s.cmd) {
      out := Closing(BAD_REQUEST);
      assert client.unsent + {} == client.unsent;
    } else {
      out := client.HandleCommand(s.cmd, s.now, s.newEpoch);
    }
  }

  /** The commands of a batch in order, up to one that closes the connection. Others
      act before each of them. */
  method HandleSteps(client: Client, steps: seq<Step>, ghost ours: set<ClientId>)
    returns (replies: seq<Reply>, disconnect: Option<Disconnect>, ghost ran: seq<Ran>)
    requires client.Valid() && client.unsent == {} && client.Ours(ours) && forall s :: s in steps ==> StepFits(s, ours)
    modifies client, client.engine, client.node, client.node.hub, client.node.hub.shards
    ensures client.Valid() && client.Ours(ours) && client.unsent == ReportedByAll(replies)
    ensures old(client.surplus) == multiset{} && (forall s :: s in steps ==> Extra(client.settings, s.cmd) == multiset{}) ==>
              client.surplus == multiset{}
    ensures StepsDone(client.Setting(), steps, ran, old(client.Now()), client.Now()) && (disconnect == None ==> |ran| == |steps|)
    ensures replies == RepliesOf(ran) && disconnect == ClosedBy(ran)
  {
    hide Client.Valid, Client.Ours, ReportedByAll, Extra, StepFits, StepDone, StepsDone, Client.There, Client.Me;
    replies, disconnect, ran := [], None, [];
    ReportedByAppend([], []);
    NoSteps(client.Setting(), steps, client.Now());
    var i := 0;
    while i < |steps| && disconnect == None
      invariant i == |ran| <= |steps| && client.Valid() && client.Ours(ours) && client.unsent == ReportedByAll(replies)
      invariant old(client.surplus) == multiset{} && (forall s :: s in steps ==> Extra(client.settings, s.cmd) == multiset{}) ==>
                  client.surplus == multiset{}
      invariant StepsDone(client.Setting(), steps, ran, old(client.Now()), client.Now())
      invariant replies == RepliesOf(ran) && disconnect == ClosedBy(ran)
    {
      ghost var before := client.Now();
      var out;
      ghost var mid;
      out, mid := HandleStep(client, steps[i], ours);
      ReportedByAppend(replies, out.replies);
      OneStepMore(client.Setting(), steps, ran, old(client.Now()), Ran(before, mid, client.Now(), out));
      OneReplyMore(ran, Ran(before, mid, client.Now(), out));
      replies, disconnect, ran := replies + out.replies, out.disconnect, ran + [Ran(before, mid, client.Now(), out)];
      i := i + 1;
    }
  }

  lemma NoSteps(at: Setup, steps: seq<Step>, b: Snapshot)
    ensures StepsDone(at, steps, [], b, b)
  {
  }

  /** Sends the replies in one frame, publishes the deferred Joins, then closes. If
      the replies cannot be sent the writer is gone, and the Joins are not published. */
  method Answer(client: Client, replies: seq<Reply>, disconnect: Option<Disconnect>, waits: Waits, ghost ours: set<ClientId>)
    returns (open: bool, lost: bool)
    requires client.Valid() && client.Ours(ours) && client.unsent == ReportedByAll(replies)
    requires AllForeign(waits.reply, ours) && Undisturbing(waits.joins, ours) && AllForeign(waits.close, ours)
    modifies client`unsent, client`pendingJoins, client`joins, client.engine, client.node, client.node.hub, client.node.hub.shards
    ensures client.Valid() && client.Ours(ours)
    ensures !lost ==> client.unsent == {} && client.pendingJoins == []
    ensures AnswerDone(client.Setting(), old(client.Now()), client.Now(), replies, disconnect, waits, open, lost)
  {
    hide Client.Valid, Client.Ours, ReportedByAll, Queued, Followed, Waited, Client.There;
    ReportedByAppend([], []);
    client.Yield(waits.reply, ours);
    ghost var waited := client.Now();
    lost := |replies| > 0;
    if lost {
      var sent := client.SendReplies(replies);
      lost := !sent;
    }
    open := !lost && disconnect == None;
    if !lost {
      ghost var replied := client.Now();
      assert RepliesQueued(client.Setting(), waited, replied, replies);
      PublishAndClose(client, disconnect, waits, ours);
    }
  }

  method PublishAndClose(client: Client, disconnect: Option<Disconnect>, waits: Waits, ghost ours: set<ClientId>)
    requires client.Valid() && client.Ours(ours) && client.unsent == {}
    requires Undisturbing(waits.joins, ours) && AllForeign(waits.close, ours)
    modifies client`unsent, client`pendingJoins, client`joins, client.engine, client.node, client.node.hub, client.node.hub.shards
    ensures client.Valid() && client.Ours(ours) && client.unsent == {} && client.pendingJoins == []
    ensures Followed(client.Setting(), old(client.Now()), client.Now(), disconnect, waits)
  {
    hide Client.Valid, Client.Ours, JoinChannels, Flushed, Between, Queued, Client.There;
    client.FlushPendingJoins(waits.joins, ours);
    ghost var joined := client.Now();
    client.Yield(waits.close, ours);
    ghost var rested := client.Now();
    if disconnect.Some? { client.SendClose(disconnect.value); }
    assert Waited(client.Setting(), joined, rested, waits.close) && ClosedAtLast(client.Setting(), rested, client.Now(), disconnect);
  }

  /** A batch of commands and its answer. */
  method HandleBatch(client: Client, steps: seq<Step>, waits: Waits, ghost ours: set<ClientId>) returns (open: bool, lost: bool)
    requires client.Valid() && client.unsent == {} && client.Ours(ours) && Fits(Batch(steps, waits), ours)
    modifies client, client.engine, client.node, client.node.hub, client.node.hub.shards
    ensures client.Valid() && client.Ours(ours) && (open ==> !lost)
    ensures !lost ==> client.unsent == {} && client.pendingJoins == []
    ensures old(client.surplus) == multiset{} && NoRepeats(client.settings, Batch(steps, waits)) ==> client.surplus == multiset{}
    ensures BatchDone(client.Setting(), old(client.Now()), client.Now(), steps, waits, open, lost)
  {
    hide Client.Valid, Client.Ours, ReportedByAll, StepFits, Extra, StepsDone, RepliesOf, ClosedBy, Client.There, Client.Me;
    var replies, disconnect;
    ghost var ran;
    replies, disconnect, ran := HandleSteps(client, steps, ours);
    ghost var m := client.Now();
    open, lost := Answer(client, replies, disconnect, waits, ours);
    assert StepsDone(client.Setting(), steps, ran, old(client.Now()), m);
  }

  /** The expiry timer: the refresh proxy first, then overdue tokens. */
  method ExpiryTurn(client: Client, proxy: ProxyResult<Renewal>, now: int) returns (open: bool)
    requires client.Valid() && client.unsent == {}
    modifies client`connInfo, client`expireAt, client`unsent, client.node`queues
    ensures client.Valid() && client.unsent == {}
    ensures ExpiryDone(client.Setting(), old(client.Now()), client.Now(), proxy, now, open)
    ensures open && client.authenticated ==>
              && !Late(client.expireAt, now)
              && forall ch :: ch in client.subscriptions ==> !Late(client.subscriptions[ch].expireAt, now)
  {
    hide Client.Valid, Queued, Renewed, RenewalVerdict, Due, Client.There;
    var d := client.ProactiveRefresh(proxy, now);
    if d == None { d := client.CheckExpired(now); }
    if d.Some? { client.SendClose(d.value); }
    open := d == None;
  }

  /** The next control signal, if one is waiting. */
  method SignalTurn(client: Client, waits: Meanwhile, ghost ours: set<ClientId>) returns (open: bool)
    requires client.Valid() && client.unsent == {} && client.Ours(ours) && Undisturbing(waits, ours)
    modifies client`subscriptions, client`leaves, client`unsent, client.engine, client.node, client.node.hub, client.node.hub.shards
    ensures client.Valid() && client.unsent == {} && client.Ours(ours)
    ensures SignalDone(client.Setting(), old(client.Now()), client.Now(), waits, open)
  {
    hide Client.Valid, Client.Ours, Undisturbing, SignalledOut, Queued, Waiting, Client.There;
    var signal := client.NextSignal();
    ghost var m := client.Now();
    open := true;
    match signal {
    case None =>
    case Some(UnsubscribeSignal(channel)) =>
      client.OnUnsubscribeSignal(channel, waits, ours);
    case Some(DisconnectSignal(d)) =>
      client.SendClose(d);
      open := false;
    }
    assert signal.Some? ==> ActedOn(client.Setting(), m, client.Now(), signal.value, waits, open);
  }

  /** One turn of the reader. */
  method TakeTurn(client: Client, e: Event, ghost ours: set<ClientId>) returns (open: bool, lost: bool)
    requires client.Valid() && client.unsent == {} && client.pendingJoins == [] && client.Ours(ours) && Fits(e, ours)
    modifies client, client.engine, client.node, client.node.hub, client.node.hub.shards
    ensures client.Valid() && client.Ours(ours) && (open ==> !lost)
    ensures !lost ==> client.unsent == {} && client.pendingJoins == []
    ensures old(client.surplus) == multiset{} && NoRepeats(client.settings, e) ==> client.surplus == multiset{}
    ensures TurnDone(client.Setting(), old(client.Now()), client.Now(), e, open, lost)
  {
    hide Client.Valid, NoRepeats, NoTraces, StepFits, AllForeign, Undisturbing, BatchDone, SignalDone, ExpiryDone, Between, Queued,
         Client.There;
    open, lost := true, false;
    match e
    case Batch(steps, waits) => open, lost := HandleBatch(client, steps, waits, ours);
    case BadFrame =>
      client.SendClose(BAD_REQUEST);
      open := false;
    case PresenceTick => client.RefreshPresence();
    case ExpiryTick(proxy, now) => open := ExpiryTurn(client, proxy, now);
    case SignalReady(waits) => open := SignalTurn(client, waits, ours);
    case SocketGone => open := false;
    case Others(whats) => client.Yield(whats, ours);
  }

  /** A connection that has not said anything yet. */
  ghost function Newcomer(): Mine {
    Mine("", "", false, None, 0, map[], [], multiset{}, multiset{}, multiset{}, {}, 0)
  }

  ghost function ServerOf(node: Node, engine: MemoryEngine): Server
    reads node, node.hub, engine
  {
    Server(World(node.hub.conns, node.hub.rel, engine.present), engine.presence, engine.streams, engine.history,
           node.queues, node.signals, node.slowCloses)
  }

  /** A connection from accept to close, whatever it sends and whatever the server does
      before, between and after its commands: one turn for every event, up to the one
      that ends the loop, and then the close. At the end the hub and the presence table
      know nothing of it; the Joins it published are its Leaves (plus the surplus of a
      CONNECT that repeated a channel, less the Joins lost with the writer); and all
      along every Join of its own came after the frame that reported the very
      subscription it is of, and only once. */
  method HandleSocket(node: Node, engine: MemoryEngine, tx: nat, proto: ProtocolType, settings: Settings,
                      events: seq<Event>, closing: Meanwhile, ghost ours: set<ClientId>)
    returns (client: Client, ghost turns: seq<Turn>, ghost last: Snapshot)
    requires node.Valid() && engine.Valid() && tx in node.queues && tx in node.signals
    requires node.queues[tx].items == [] && tx !in node.everRegistered
    requires "" in ours && NoTraces(World(node.hub.conns, node.hub.rel, engine.present), ours)
    requires (forall e :: e in events ==> Fits(e, ours)) && Undisturbing(closing, ours)
    modifies node, node.hub, node.hub.shards, engine
    ensures client.node == node && client.engine == engine && client.ServerValid()
    ensures client.Setting() == Setup(settings, node.useSeqGen, engine.metaTtl, tx, proto)
    ensures TurnsDone(client.Setting(), events, turns, Snapshot(Newcomer(), old(ServerOf(node, engine))), last)
    ensures StillOpen(turns) ==> |turns| == |events|
    ensures exists left ::
              && Disconnected(client.Setting(), last, left, closing)
              && client.Now() == left.(server := left.server.(signals := node.signals))
    ensures NoTrace(client.Here(), client.id) && node.signals[tx].closed
    ensures client.joins + JoinChannels(client.Pending()) == client.leaves + client.surplus
    ensures !LostReplies(turns) ==> client.pendingJoins == [] && client.joins == client.leaves + client.surplus
    ensures (forall e :: e in events ==> NoRepeats(settings, e)) ==> client.surplus == multiset{}
    ensures JoinsFollowReplies(client.Items(), client.id) && JoinedOnce(client.Items(), client.id) && ReportedOnce(client.Items())
  {
    hide Client.Valid, NoRepeats, Fits, JoinsFollowReplies, JoinedOnce, ReportedOnce, NoTrace, Undisturbing, NodeModel.Node.Valid,
         HubModel.Hub.Valid, Memory.MemoryEngine.Valid, JoinChannels, Numbered, Covered, TurnDone, TurnsDone, Disconnected;
    client := new Client(node, engine, tx, proto, settings);
    turns := ReadAll(client, events, ours);
    last := client.Now();
    client.OnDisconnect(closing, ours);
    ghost var left := client.Now();
    client.CloseReader();
    NothingDeferred();
    assert Disconnected(client.Setting(), last, left, closing);
  }

  /** The read loop. */
  method ReadAll(client: Client, events: seq<Event>, ghost ours: set<ClientId>) returns (ghost turns: seq<Turn>)
    requires client.Valid() && client.unsent == {} && client.pendingJoins == [] && client.Ours(ours)
    requires forall e :: e in events ==> Fits(e, ours)
    modifies client, client.engine, client.node, client.node.hub, client.node.hub.shards
    ensures client.Valid() && client.Ours(ours)
    ensures TurnsDone(client.Setting(), events, turns, old(client.Now()), client.Now()) && (StillOpen(turns) ==> |turns| == |events|)
    ensures !LostReplies(turns) ==> client.unsent == {} && client.pendingJoins == []
    ensures old(client.surplus) == multiset{} && (forall e :: e in events ==> NoRepeats(client.settings, e)) ==>
              client.surplus == multiset{}
  {
    hide Client.Valid, Client.Ours, NoRepeats, Fits, TurnDone, TurnsDone, Client.There, Client.Me;
    turns := [];
    NoTurns(client.Setting(), events, client.Now());
    var i, open := 0, true;
    while open && i < |events|
      invariant i == |turns| <= |events| && client.Valid() && client.Ours(ours) && open == StillOpen(turns)
      invariant TurnsDone(client.Setting(), events, turns, old(client.Now()), client.Now())
      invariant (open ==> !LostReplies(turns)) && (!LostReplies(turns) ==> client.unsent == {} && client.pendingJoins == [])
      invariant old(client.surplus) == multiset{} && (forall e :: e in events ==> NoRepeats(client.settings, e)) ==>
                  client.surplus == multiset{}
    {
      ghost var before := client.Now();
      var lost;
      open, lost := TakeTurn(client, events[i], ours);
      OneTurnMore(client.Setting(), events, turns, old(client.Now()), Turn(before, client.Now(), open, lost));
      turns := turns + [Turn(before, client.Now(), open, lost)];
      i := i + 1;
    }
  }

  lemma NoTurns(at: Setup, events: seq<Event>, b: Snapshot)
    ensures TurnsDone(at, events, [], b, b)
  {
  }
}
