/** What a connection's state must agree with: the hub, the Joins and Leaves it
    published, and the order of its own queue. */
module Session {
  import opened Common
  import opened Types
  import opened HubModel
  import opened NodeModel
  import opened StreamModel

  /** A subscription, with the channel options in force when it was made. */
  datatype SubState = SubState(expireAt: int, recoverable: bool, presence: bool, joinLeave: bool,
                               chanInfo: Option<Bytes>, serverSide: bool)

  type Subscriptions = map<Channel, SubState>
  type Conns = map<ClientId, ClientHandle>

  /** What the server knows: registered connections, who the hub relates to which
      channel, and who is present where. */
  datatype World = World(conns: Conns, rel: Relation, present: Relation)

  // ---- coherence with the hub and the presence table ----

  /** The connection's queue is reached under its own id only. */
  ghost predicate Attached(conns: Conns, id: ClientId, tx: nat) {
    && (id in conns ==> conns[id].tx == tx)
    && forall c :: c in conns && conns[c].tx == tx ==> c == id
  }

  /** The hub relates the client to subscribed channels only, and to all of them while
      it is registered; it is present exactly where it is subscribed with presence on. */
  ghost predicate Agrees(w: World, id: ClientId, subs: Subscriptions) {
    && (forall ch :: (id, ch) in w.rel ==> ch in subs)
    && (id in w.conns ==> forall ch :: ch in subs ==> (id, ch) in w.rel)
    && PresentExactly(w, id, subs)
  }

  ghost predicate PresentExactly(w: World, id: ClientId, subs: Subscriptions) {
    forall ch :: (id, ch) in w.present <==> ch in subs && subs[ch].presence
  }

  /** Neither the hub nor the presence table knows the client. */
  ghost predicate NoTrace(w: World, id: ClientId) {
    id !in w.conns && forall ch :: (id, ch) !in w.rel && (id, ch) !in w.present
  }

  /** Nothing was added for any client but `id`. */
  ghost predicate Kept(w: World, before: World, id: ClientId) {
    && w.conns.Keys <= before.conns.Keys + {id}
    && WithoutClient(w.rel, id) <= before.rel
    && WithoutClient(w.present, id) <= before.present
  }

  lemma KeptOn(w: World, middle: World, before: World, id: ClientId)
    requires Kept(w, middle, id) && Kept(middle, before, id)
    ensures Kept(w, before, id)
  {
  }

  lemma KeptAll(w: World, id: ClientId)
    ensures Kept(w, w, id)
  {
  }

  function Dropped(w: World, gone: set<ClientId>): World {
    World(w.conns - gone, WithoutClients(w.rel, gone), w.present)
  }

  function Absent(w: World, id: ClientId, channel: Channel, was: bool): World {
    w.(present := if was then w.present - {(id, channel)} else w.present)
  }

  function Left(w: World, id: ClientId, channel: Channel): World {
    w.(rel := w.rel - {(id, channel)})
  }

  function Entered(w: World, id: ClientId, channel: Channel, presence: bool): World {
    World(w.conns, w.rel + {(id, channel)}, if presence then w.present + {(id, channel)} else w.present)
  }

  /** Connections dropped as slow, this one perhaps among them, cost no coherence. */
  lemma AgreesAfterDrops(w: World, id: ClientId, subs: Subscriptions, gone: set<ClientId>, tx: nat)
    ensures Agrees(w, id, subs) ==> Agrees(Dropped(w, gone), id, subs)
    ensures Attached(w.conns, id, tx) ==> Attached(Dropped(w, gone).conns, id, tx)
    ensures PresentExactly(w, id, subs) ==> PresentExactly(Dropped(w, gone), id, subs)
    ensures Kept(Dropped(w, gone), w, id)
  {
  }

  lemma AgreesLeave(w: World, id: ClientId, subs: Subscriptions, channel: Channel, gone: set<ClientId>)
    requires Agrees(w, id, subs) && channel in subs
    ensures var r := Left(Dropped(Absent(w, id, channel, subs[channel].presence), gone), id, channel);
            Agrees(r, id, subs - {channel}) && Kept(r, w, id)
  {
  }

  lemma AgreesEnter(w: World, id: ClientId, subs: Subscriptions, channel: Channel, state: SubState)
    requires Agrees(w, id, subs)
    requires channel in subs ==> subs[channel].presence == state.presence
    ensures var r := Entered(w, id, channel, state.presence);
            Agrees(r, id, subs[channel := state]) && Kept(r, w, id)
  {
  }

  /** Refreshing a subscription's token changes neither presence nor joins. */
  lemma SameShape(w: World, id: ClientId, subs: Subscriptions, channel: Channel, state: SubState,
                  joins: multiset<Channel>, pending: multiset<Channel>, leaves: multiset<Channel>, surplus: multiset<Channel>)
    requires channel in subs && state.presence == subs[channel].presence && state.joinLeave == subs[channel].joinLeave
    requires Agrees(w, id, subs) && Ledger(joins, pending, leaves, subs, surplus)
    ensures Agrees(w, id, subs[channel := state]) && Ledger(joins, pending, leaves, subs[channel := state], surplus)
  {
    assert Announcing(subs[channel := state]) == Announcing(subs);
  }

  lemma PresentLeave(w: World, id: ClientId, left: Subscriptions, channel: Channel, gone: set<ClientId>)
    requires PresentExactly(w, id, left) && channel in left
    ensures var r := Dropped(Absent(w, id, channel, left[channel].presence), gone);
            PresentExactly(r, id, left - {channel}) && Kept(r, w, id)
  {
  }

  /** Out of the hub, a client with no presence left is forgotten. */
  lemma Forgotten(w: World, id: ClientId)
    requires PresentExactly(w, id, map[])
    ensures var r := World(w.conns - {id}, WithoutClient(w.rel, id), w.present);
            NoTrace(r, id) && Kept(r, w, id)
  {
  }

  /** Whatever happened to others, `id` at most fell out of the hub. */
  ghost predicate Spared(w: World, before: World, id: ClientId) {
    && (id in w.conns ==>
          && id in before.conns && w.conns[id] == before.conns[id]
          && forall ch :: (id, ch) in before.rel ==> (id, ch) in w.rel)
    && forall ch :: ((id, ch) in w.rel ==> (id, ch) in before.rel) && ((id, ch) in w.present <==> (id, ch) in before.present)
  }

  ghost predicate AllSpared(w: World, before: World, ids: set<ClientId>) {
    forall id :: id in ids ==> Spared(w, before, id)
  }

  lemma SparedAgrees(w: World, before: World, id: ClientId, subs: Subscriptions)
    requires Spared(w, before, id)
    ensures Agrees(before, id, subs) ==> Agrees(w, id, subs)
    ensures PresentExactly(before, id, subs) ==> PresentExactly(w, id, subs)
    ensures NoTrace(before, id) ==> NoTrace(w, id)
  {
  }

  lemma SparedAll(w: World, ids: set<ClientId>)
    ensures AllSpared(w, w, ids)
  {
  }

  lemma SparedOne(w: World, before: World, ids: set<ClientId>, id: ClientId)
    requires AllSpared(w, before, ids) && id in ids
    ensures Spared(w, before, id)
    ensures NoTrace(before, id) ==> NoTrace(w, id)
  {
    SparedAgrees(w, before, id, map[]);
  }

  lemma SparedOn(w: World, middle: World, before: World, ids: set<ClientId>)
    requires AllSpared(w, middle, ids) && AllSpared(middle, before, ids)
    ensures AllSpared(w, before, ids)
  {
    forall id | id in ids ensures Spared(w, before, id) {
      assert Spared(w, middle, id) && Spared(middle, before, id);
    }
  }

  lemma SparedByDrops(w: World, gone: set<ClientId>, ids: set<ClientId>)
    ensures AllSpared(Dropped(w, gone), w, ids)
  {
  }

  /** None of these ids is known anywhere. */
  ghost predicate NoTraces(w: World, ids: set<ClientId>) {
    forall id :: id in ids ==> NoTrace(w, id)
  }

  lemma SparedNoTraces(w: World, before: World, ids: set<ClientId>)
    requires AllSpared(w, before, ids) && NoTraces(before, ids)
    ensures NoTraces(w, ids)
  {
    forall id | id in ids ensures NoTrace(w, id) {
      assert Spared(w, before, id) && NoTrace(before, id);
    }
  }

  // ---- the ledger of Joins and Leaves ----

  /** A Join put off until the reply is out. */
  datatype Deferred = Deferred(channel: Channel, info: ClientInfo, ghost serial: nat)

  function WithDeferred(deferred: seq<Deferred>, announces: bool, more: Deferred): seq<Deferred> {
    if announces then deferred + [more] else deferred
  }

  ghost function MadeOf(deferred: seq<Deferred>): seq<Made> {
    seq(|deferred|, i requires 0 <= i < |deferred| => (deferred[i].serial, deferred[i].channel))
  }

  function JoinChannels(made: seq<Made>): multiset<Channel> {
    if made == [] then multiset{} else multiset{made[0].1} + JoinChannels(made[1..])
  }

  lemma {:induction false} ChannelsSnoc(made: seq<Made>, m: Made)
    ensures JoinChannels(made + [m]) == JoinChannels(made) + multiset{m.1}
  {
    var all := made + [m];
    if made != [] {
      assert all[1..] == made[1..] + [m];
      ChannelsSnoc(made[1..], m);
    } else {
      assert all[1..] == [];
    }
  }

  /** One more Join owed, if the channel announces. */
  function OneMore(made: seq<Made>, m: Made, announces: bool): seq<Made> {
    if announces then made + [m] else made
  }

  lemma ChannelsOfOneMore(made: seq<Made>, m: Made, announces: bool)
    ensures JoinChannels(OneMore(made, m, announces)) == JoinChannels(made) + Once(m.1, announces)
    ensures JoinChannels([]) == multiset{}
  {
    ChannelsSnoc(made, m);
  }

  lemma FirstDeferred(deferred: seq<Deferred>)
    requires deferred != []
    ensures MadeOf(deferred) == [(deferred[0].serial, deferred[0].channel)] + MadeOf(deferred[1..])
    ensures JoinChannels(MadeOf(deferred)) == multiset{deferred[0].channel} + JoinChannels(MadeOf(deferred[1..]))
  {
    assert MadeOf(deferred)[1..] == MadeOf(deferred[1..]);
  }

  lemma DeferredSnoc(deferred: seq<Deferred>, d: Deferred)
    ensures MadeOf(deferred + [d]) == MadeOf(deferred) + [(d.serial, d.channel)]
  {
  }

  lemma NothingDeferred()
    ensures JoinChannels(MadeOf([])) == multiset{}
  {
  }

  /** The subscribed channels that announce joins and leaves. */
  function Announcing(subs: Subscriptions): set<Channel> {
    set ch | ch in subs && subs[ch].joinLeave
  }

  /** Joins published or pending are Leaves published, plus one for each subscribed
      announcing channel, plus the surplus of channels subscribed twice at connect. */
  ghost predicate Ledger(joins: multiset<Channel>, pending: multiset<Channel>, leaves: multiset<Channel>,
                         subs: Subscriptions, surplus: multiset<Channel>)
  {
    forall c: Channel :: joins[c] + pending[c] == leaves[c] + (if c in Announcing(subs) then 1 else 0) + surplus[c]
  }

  /** `channel`, once, if it announces. */
  function Once(channel: Channel, announces: bool): multiset<Channel> {
    if announces then multiset{channel} else multiset{}
  }

  lemma OnceOfNone(channel: Channel)
    ensures forall m: multiset<Channel> :: m + Once(channel, false) == m
  {
  }

  /** Unsubscribing pairs the channel's Join with a Leave. */
  lemma LedgerLeave(joins: multiset<Channel>, pending: multiset<Channel>, leaves: multiset<Channel>,
                    subs: Subscriptions, surplus: multiset<Channel>, channel: Channel)
    requires Ledger(joins, pending, leaves, subs, surplus) && channel in subs
    ensures Ledger(joins, pending, leaves + Once(channel, subs[channel].joinLeave), subs - {channel}, surplus)
  {
  }

  /** Subscribing owes a Join; doing it again, with the same options, a surplus one. */
  lemma LedgerSubscribe(joins: multiset<Channel>, pending: multiset<Channel>, leaves: multiset<Channel>,
                        subs: Subscriptions, surplus: multiset<Channel>, channel: Channel, state: SubState)
    requires Ledger(joins, pending, leaves, subs, surplus)
    requires channel in subs ==> subs[channel].joinLeave == state.joinLeave
    ensures Ledger(joins, pending + Once(channel, state.joinLeave), leaves, subs[channel := state],
                   surplus + Once(channel, state.joinLeave && channel in subs))
  {
  }

  /** A pending Join that is published stays on the books. */
  lemma LedgerFlush(joins: multiset<Channel>, pending: multiset<Channel>, leaves: multiset<Channel>,
                    subs: Subscriptions, surplus: multiset<Channel>, channel: Channel)
    requires Ledger(joins, multiset{channel} + pending, leaves, subs, surplus)
    ensures Ledger(joins + multiset{channel}, pending, leaves, subs, surplus)
  {
  }

  lemma LedgerClosed(joins: multiset<Channel>, pending: multiset<Channel>, leaves: multiset<Channel>, surplus: multiset<Channel>)
    requires Ledger(joins, pending, leaves, map[], surplus)
    ensures joins + pending == leaves + surplus
  {
    forall c: Channel ensures (joins + pending)[c] == (leaves + surplus)[c] {}
  }

  // ---- the order of the connection's queue ----

  /** The subscriptions a reply tells the client it now has. */
  ghost function ReportedBy(reply: Reply): set<Made> {
    match reply.result
    case ConnectReply(subs, made) => set m | m in made && m.1 in subs
    case SubscribeReply(channel, _, serial) => {(serial, channel)}
    case _ => {}
  }

  ghost function ReportedByAll(replies: seq<Reply>): set<Made> {
    set r, m | r in replies && m in ReportedBy(r) :: m
  }

  lemma ReportedByAppend(a: seq<Reply>, b: seq<Reply>)
    ensures ReportedByAll(a + b) == ReportedByAll(a) + ReportedByAll(b)
    ensures ReportedByAll([]) == {}
  {
  }

  lemma ReportedByOne(reply: Reply)
    ensures ReportedByAll([reply]) == ReportedBy(reply)
  {
    assert reply in [reply];
  }

  ghost function ReportedIn(item: Out<WireFrame>): set<Made> {
    if item.Frame? && item.frame.body.Replies? then ReportedByAll(item.frame.body.replies) else {}
  }

  /** The subscription whose Join this is, if it is a Join of the client itself. */
  ghost function SelfJoin(item: Out<WireFrame>, id: ClientId): Option<Made> {
    if item.Frame? && item.frame.body.Pushed? && item.frame.body.push.JoinPush? && item.frame.body.push.info.client == id
    then Some((item.frame.body.push.serial, item.frame.body.push.channel)) else None
  }

  ghost predicate ReportedBefore(items: seq<Out<WireFrame>>, k: nat, m: Made)
    requires k <= |items|
  {
    exists j :: 0 <= j < k && m in ReportedIn(items[j])
  }

  /** The client never sees a Join of its own before the reply that announced the very
      subscription the Join is of. */
  ghost predicate JoinsFollowReplies(items: seq<Out<WireFrame>>, id: ClientId) {
    forall k :: 0 <= k < |items| && SelfJoin(items[k], id).Some? ==> ReportedBefore(items, k, SelfJoin(items[k], id).value)
  }

  /** No subscription's Join reaches the client twice. */
  ghost predicate JoinedOnce(items: seq<Out<WireFrame>>, id: ClientId) {
    forall j, k :: 0 <= j < k < |items| && SelfJoin(items[j], id).Some? && SelfJoin(items[k], id).Some? ==>
      SelfJoin(items[j], id).value.0 != SelfJoin(items[k], id).value.0
  }

  /** No subscription is reported by two frames. */
  ghost predicate ReportedOnce(items: seq<Out<WireFrame>>) {
    forall j, k, m, n :: 0 <= j < k < |items| && m in ReportedIn(items[j]) && n in ReportedIn(items[k]) ==> m.0 != n.0
  }

  /** Subscriptions are numbered below `next`, those still unsent unlike any reported. */
  ghost predicate Numbered(items: seq<Out<WireFrame>>, unsent: set<Made>, next: nat) {
    && (forall m :: m in unsent ==> m.0 < next)
    && (forall m, n :: m in unsent && n in unsent && m.0 == n.0 ==> m == n)
    && (forall k, m :: 0 <= k < |items| && m in ReportedIn(items[k]) ==> m.0 < next && forall n :: n in unsent ==> m.0 != n.0)
  }

  /** Every Join still to come is of a subscription of its own, reported in the queue or
      in the batch at hand. */
  ghost predicate Covered(items: seq<Out<WireFrame>>, id: ClientId, pending: seq<Made>, unsent: set<Made>, next: nat) {
    && (forall i :: 0 <= i < |pending| ==> pending[i].0 < next && (pending[i] in unsent || ReportedBefore(items, |items|, pending[i])))
    && (forall i, j :: 0 <= i < j < |pending| ==> pending[i].0 != pending[j].0)
    && (forall k :: 0 <= k < |items| && SelfJoin(items[k], id).Some? ==>
          SelfJoin(items[k], id).value.0 < next && forall i :: 0 <= i < |pending| ==> SelfJoin(items[k], id).value.0 != pending[i].0)
  }

  ghost predicate Order(items: seq<Out<WireFrame>>, id: ClientId, pending: seq<Made>, unsent: set<Made>, next: nat) {
    && JoinsFollowReplies(items, id) && JoinedOnce(items, id) && ReportedOnce(items)
    && Numbered(items, unsent, next) && Covered(items, id, pending, unsent, next)
  }

  lemma StillReported(items: seq<Out<WireFrame>>, item: Out<WireFrame>)
    ensures forall k, m :: 0 <= k <= |items| && ReportedBefore(items, k, m) ==> ReportedBefore(items + [item], k, m)
    ensures forall m :: ReportedBefore(items, |items|, m) || m in ReportedIn(item) ==> ReportedBefore(items + [item], |items| + 1, m)
  {
    var all := items + [item];
    forall k, m | 0 <= k <= |items| && ReportedBefore(items, k, m) ensures ReportedBefore(all, k, m) {
      var j :| 0 <= j < k && m in ReportedIn(items[j]);
      assert all[j] == items[j];
    }
    forall m | ReportedBefore(items, |items|, m) || m in ReportedIn(item) ensures ReportedBefore(all, |items| + 1, m) {
      if m in ReportedIn(item) {
        assert all[|items|] == item;
      } else {
        var j :| 0 <= j < |items| && m in ReportedIn(items[j]);
        assert all[j] == items[j];
      }
    }
  }

  /** Appending a frame that is no Join ahead of its report, and reports nothing but
      unsent subscriptions. */
  lemma QueueGrows(items: seq<Out<WireFrame>>, item: Out<WireFrame>, id: ClientId, unsent: set<Made>, next: nat)
    requires JoinsFollowReplies(items, id) && ReportedOnce(items) && Numbered(items, unsent, next)
    requires ReportedIn(item) <= unsent
    requires SelfJoin(item, id).Some? ==> ReportedBefore(items, |items|, SelfJoin(item, id).value)
    ensures JoinsFollowReplies(items + [item], id) && ReportedOnce(items + [item])
    ensures Numbered(items + [item], unsent - ReportedIn(item), next)
  {
    hide SelfJoin, ReportedIn, ReportedBefore;
    StillReported(items, item);
  }

  lemma JoinsGrow(items: seq<Out<WireFrame>>, item: Out<WireFrame>, id: ClientId, pending: seq<Made>, unsent: set<Made>, next: nat)
    requires JoinedOnce(items, id) && Covered(items, id, pending, unsent, next)
    requires SelfJoin(item, id).Some? ==>
               && SelfJoin(item, id).value.0 < next
               && (forall i :: 0 <= i < |pending| ==> SelfJoin(item, id).value.0 != pending[i].0)
               && forall k :: 0 <= k < |items| && SelfJoin(items[k], id).Some? ==>
                    SelfJoin(items[k], id).value.0 != SelfJoin(item, id).value.0
    ensures JoinedOnce(items + [item], id) && Covered(items + [item], id, pending, unsent - ReportedIn(item), next)
  {
    hide SelfJoin, ReportedIn, ReportedBefore;
    StillReported(items, item);
  }

  /** Frames that are no self-Join keep the order; replies settle what they report. */
  lemma OrderOther(items: seq<Out<WireFrame>>, item: Out<WireFrame>, id: ClientId, pending: seq<Made>, unsent: set<Made>, next: nat)
    requires Order(items, id, pending, unsent, next) && SelfJoin(item, id) == None && ReportedIn(item) <= unsent
    ensures Order(items + [item], id, pending, unsent - ReportedIn(item), next)
  {
    hide SelfJoin, ReportedIn, ReportedBefore, JoinsFollowReplies, JoinedOnce, ReportedOnce, Numbered, Covered;
    QueueGrows(items, item, id, unsent, next);
    JoinsGrow(items, item, id, pending, unsent, next);
  }

  /** The first of the Joins to come is of a reported subscription no Join was of. */
  lemma FirstCovered(items: seq<Out<WireFrame>>, id: ClientId, m: Made, pending: seq<Made>, next: nat)
    requires Covered(items, id, [m] + pending, {}, next)
    ensures Covered(items, id, pending, {}, next)
    ensures ReportedBefore(items, |items|, m) && m.0 < next
    ensures forall i :: 0 <= i < |pending| ==> m.0 != pending[i].0
    ensures forall k :: 0 <= k < |items| && SelfJoin(items[k], id).Some? ==> SelfJoin(items[k], id).value.0 != m.0
  {
    hide SelfJoin, ReportedIn, ReportedBefore;
    var all := [m] + pending;
    assert all[0] == m && forall i :: 0 <= i < |pending| ==> all[i + 1] == pending[i];
  }

  /** A Join of one's own may go out once its subscription has been reported. */
  lemma OrderJoin(items: seq<Out<WireFrame>>, item: Out<WireFrame>, id: ClientId, m: Made, pending: seq<Made>, next: nat)
    requires Order(items, id, [m] + pending, {}, next) && ReportedIn(item) == {}
    requires SelfJoin(item, id) == None || SelfJoin(item, id) == Some(m)
    ensures Order(items, id, pending, {}, next)
    ensures Order(items + [item], id, pending, {}, next)
  {
    hide SelfJoin, ReportedIn, ReportedBefore, JoinsFollowReplies, JoinedOnce, ReportedOnce, Numbered, Covered;
    FirstCovered(items, id, m, pending, next);
    QueueGrows(items, item, id, {}, next);
    JoinsGrow(items, item, id, pending, {}, next);
    var none: set<Made> := {};
    assert none - {} == none;
  }

  /** Subscribing makes one more subscription to report, and perhaps a Join to publish. */
  lemma OrderSubscribe(items: seq<Out<WireFrame>>, id: ClientId, pending: seq<Made>, unsent: set<Made>, next: nat,
                       channel: Channel, announces: bool)
    requires Order(items, id, pending, unsent, next)
    ensures Order(items, id, OneMore(pending, (next, channel), announces), unsent + {(next, channel)}, next + 1)
  {
    hide SelfJoin, ReportedIn, ReportedBefore;
  }

  /** Both books after one more subscription. */
  lemma BookSubscription(items: seq<Out<WireFrame>>, id: ClientId, pending: seq<Made>, unsent: set<Made>, next: nat,
                         joins: multiset<Channel>, leaves: multiset<Channel>, subs: Subscriptions, surplus: multiset<Channel>,
                         channel: Channel, state: SubState)
    requires Ledger(joins, JoinChannels(pending), leaves, subs, surplus) && Order(items, id, pending, unsent, next)
    requires channel in subs ==> subs[channel].joinLeave == state.joinLeave
    ensures var more := OneMore(pending, (next, channel), state.joinLeave);
            && Ledger(joins, JoinChannels(more), leaves, subs[channel := state], surplus + Once(channel, state.joinLeave && channel in subs))
            && Order(items, id, more, unsent + {(next, channel)}, next + 1)
  {
    hide Order, Ledger, OneMore, JoinChannels, Once;
    ChannelsOfOneMore(pending, (next, channel), state.joinLeave);
    LedgerSubscribe(joins, JoinChannels(pending), leaves, subs, surplus, channel, state);
    OrderSubscribe(items, id, pending, unsent, next, channel, state.joinLeave);
  }

  /** The queue as before, or with the push at its end in one of the protocols. */
  ghost predicate Extends(items: seq<Out<WireFrame>>, before: seq<Out<WireFrame>>, push: Push) {
    || items == before
    || items == before + [Frame(WireFrame(Json, Pushed(push)))]
    || items == before + [Frame(WireFrame(Protobuf, Pushed(push)))]
  }

  /** A delivery reaches this connection's queue at most once, and not at all if it is
      not registered. */
  lemma DeliveredExtends(queues: map<nat, Queue>, before: map<nat, Queue>, w: World, push: Push, id: ClientId, tx: nat)
    requires Delivered(queues, before, w.conns, w.rel, push)
    requires Attached(w.conns, id, tx) && tx in before
    ensures tx in queues && Extends(queues[tx].items, before[tx].items, push) && before[tx].items <= queues[tx].items
    ensures id !in w.conns ==> queues[tx] == before[tx]
  {
    assert id in w.conns ==> w.conns[id].proto == Json || w.conns[id].proto == Protobuf;
  }

  /** Any push but a Join of the client itself keeps the order of its queue. */
  lemma OrderExtends(items: seq<Out<WireFrame>>, before: seq<Out<WireFrame>>, push: Push, id: ClientId,
                     pending: seq<Made>, unsent: set<Made>, next: nat)
    requires Extends(items, before, push) && !(push.JoinPush? && push.info.client == id)
    requires Order(before, id, pending, unsent, next)
    ensures Order(items, id, pending, unsent, next)
  {
    hide Order;
    assert unsent - {} == unsent;
    if items != before {
      OrderOther(before, items[|before|], id, pending, unsent, next);
      assert items == before + [items[|before|]];
    }
  }

  /** A pending Join that is published, whether or not the client gets it, is settled. */
  lemma OrderJoins(items: seq<Out<WireFrame>>, before: seq<Out<WireFrame>>, push: Push, id: ClientId, pending: seq<Made>, next: nat)
    requires Extends(items, before, push) && push.JoinPush?
    requires Order(before, id, [(push.serial, push.channel)] + pending, {}, next)
    ensures Order(items, id, pending, {}, next)
  {
    hide Order;
    OrderJoin(before, Frame(WireFrame(Json, Pushed(push))), id, (push.serial, push.channel), pending, next);
    OrderJoin(before, Frame(WireFrame(Protobuf, Pushed(push))), id, (push.serial, push.channel), pending, next);
  }

  /** The frames of a queue before CONNECT: closes and replies that report nothing. */
  ghost predicate Unpushed(items: seq<Out<WireFrame>>) {
    forall item :: item in items ==> Plain(item)
  }

  ghost predicate Plain(item: Out<WireFrame>) {
    ReportedIn(item) == {} && (item.Frame? ==> item.frame.body.Replies?)
  }

  lemma PlainReply(item: Out<WireFrame>)
    requires ReportedIn(item) == {} && (item.Frame? ==> item.frame.body.Replies?)
    ensures Plain(item)
  {
  }

  lemma UnpushedSnoc(items: seq<Out<WireFrame>>, item: Out<WireFrame>)
    requires Unpushed(items) && Plain(item)
    ensures Unpushed(items + [item])
  {
  }

  /** A connection that has seen no push is in order under any id. */
  lemma UnpushedOrder(items: seq<Out<WireFrame>>, id: ClientId, next: nat)
    requires Unpushed(items)
    ensures Order(items, id, [], {}, next)
  {
    assert forall k :: 0 <= k < |items| ==> Plain(items[k]);
  }

  /** A connection that was just accepted owes nothing to anyone. */
  lemma NewlyAccepted(w: World)
    requires NoTrace(w, "")
    ensures "" !in w.conns
    ensures Agrees(w, "", map[]) && Ledger(multiset{}, JoinChannels(MadeOf([])), multiset{}, map[], multiset{})
    ensures Order([], "", MadeOf([]), {}, 0) && Unpushed([])
  {
    UnpushedOrder([], "", 0);
    assert MadeOf([]) == [];
  }
}
