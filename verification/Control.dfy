/** Cross-node control: the issuer applies a command to its own connections and then
    publishes it; every node takes it from the bus and skips its own
    (`unsubscribe_user`, `disconnect_user` in crates/centrifugo-core/src/node.rs,
    `encode_control`, `decode_control` in crates/centrifugo-redis/src/lib.rs). */
module Control {
  import opened Common
  import opened Types

  const NODE_METHOD := 0
  const UNSUBSCRIBE_METHOD := 1
  const DISCONNECT_METHOD := 2

  /** The decoded parameters of a wire command, by what they can be read as. */
  datatype Params =
    | UnsubscribeParams(channel: Channel, user: string)
    | DisconnectParams(user: string, whitelist: seq<ClientId>, code: u32, reason: string, reconnect: bool)
    | NodeParams(info: NodeInfo)
    | Unreadable

  /** A command on the bus: who sent it, what it is, with what. */
  datatype WireCommand = WireCommand(uid: string, verb: int, params: Params) | Garbage

  function EncodeControl(uid: string, msg: ControlMessage): WireCommand {
    match msg
    case Unsubscribe(user, channel) => WireCommand(uid, UNSUBSCRIBE_METHOD, UnsubscribeParams(channel, user))
    case DisconnectUser(user, code, reason, reconnect, whitelist) =>
      WireCommand(uid, DISCONNECT_METHOD, DisconnectParams(user, whitelist, code, reason, reconnect))
    case NodePing(info) => WireCommand(uid, NODE_METHOD, NodeParams(info))
  }

  function DecodeControl(w: WireCommand, self: string): Option<ControlMessage> {
    if w.Garbage? || w.uid == self then None
    else if w.verb == UNSUBSCRIBE_METHOD && w.params.UnsubscribeParams? then
      Some(Unsubscribe(w.params.user, w.params.channel))
    else if w.verb == DISCONNECT_METHOD && w.params.DisconnectParams? then
      Some(DisconnectUser(w.params.user, w.params.code, w.params.reason, w.params.reconnect, w.params.whitelist))
    else if w.verb == NODE_METHOD && w.params.NodeParams? then
      Some(NodePing(w.params.info))
    else None
  }

  /** A command reaches every node but those that have the sender's uid. */
  lemma ControlRoundTrip(uid: string, msg: ControlMessage, self: string)
    ensures DecodeControl(EncodeControl(uid, msg), self) == if uid == self then None else Some(msg)
  {
  }

  /** A command and the index of the node it was issued on. */
  datatype Issued = Issued(from: nat, msg: ControlMessage)

  /** `waiting` are issued but not yet on the bus; `inboxes` are what the bus has for
      each node; `applied` is what each node has applied so far. */
  datatype Cluster = Cluster(uids: seq<string>, issued: seq<Issued>, waiting: seq<Issued>,
                             inboxes: seq<seq<WireCommand>>, applied: seq<multiset<ControlMessage>>)
  {
    ghost predicate Shaped() {
      && |inboxes| == |applied| == |uids|
      && forall k :: 0 <= k < |waiting| ==> waiting[k].from < |uids|
    }

    /** Nothing is under way. */
    ghost predicate Quiescent() {
      waiting == [] && forall j :: 0 <= j < |inboxes| ==> inboxes[j] == []
    }
  }

  datatype Action = Issue(from: nat, msg: ControlMessage) | Publish(k: nat) | Deliver(to: nat)

  ghost predicate Enabled(c: Cluster, a: Action) {
    match a
    case Issue(i, _) => i < |c.uids|
    case Publish(k) => k < |c.waiting|
    case Deliver(j) => j < |c.inboxes| && c.inboxes[j] != []
  }

  function Init(uids: seq<string>): Cluster {
    Cluster(uids, [], [], seq(|uids|, _ => []), seq(|uids|, _ => multiset{}))
  }

  /** Whether the issuer applies it to itself: pings are only published. */
  predicate AppliedAtHome(msg: ControlMessage) { !msg.NodePing? }

  function Single(x: Option<ControlMessage>): multiset<ControlMessage> {
    match x
    case None => multiset{}
    case Some(msg) => multiset{msg}
  }

  function Next(c: Cluster, a: Action): (d: Cluster)
    requires c.Shaped() && Enabled(c, a)
    ensures d.Shaped() && d.uids == c.uids
  {
    match a
    case Issue(i, msg) =>
      c.(issued := c.issued + [Issued(i, msg)], waiting := c.waiting + [Issued(i, msg)],
         applied := if AppliedAtHome(msg) then c.applied[i := c.applied[i] + multiset{msg}] else c.applied)
    case Publish(k) =>
      var w := EncodeControl(c.uids[c.waiting[k].from], c.waiting[k].msg);
      c.(waiting := c.waiting[..k] + c.waiting[k + 1..],
         inboxes := seq(|c.inboxes|, j requires 0 <= j < |c.inboxes| => c.inboxes[j] + [w]))
    case Deliver(j) =>
      c.(inboxes := c.inboxes[j := c.inboxes[j][1..]],
         applied := c.applied[j := c.applied[j] + Single(DecodeControl(c.inboxes[j][0], c.uids[j]))])
  }

  /** `c` is reached from the start by these actions. */
  ghost predicate Reaches(uids: seq<string>, actions: seq<Action>, c: Cluster)
    decreases |actions|
  {
    if actions == [] then c == Init(uids)
    else
      var n := |actions| - 1;
      exists b: Cluster :: Reaches(uids, actions[..n], b) && b.Shaped() && Enabled(b, actions[n]) && c == Next(b, actions[n])
  }

  ghost predicate Distinct(uids: seq<string>) {
    forall i, j :: 0 <= i < j < |uids| ==> uids[i] != uids[j]
  }

  /** What node `j` must have applied once: everything issued, except its own pings. */
  function Due(issued: seq<Issued>, j: nat): multiset<ControlMessage> {
    if issued == [] then multiset{}
    else
      var n := |issued| - 1;
      Due(issued[..n], j) + if issued[n].from != j || !issued[n].msg.NodePing? then multiset{issued[n].msg} else multiset{}
  }

  /** What others have yet to publish. */
  function WaitingFor(waiting: seq<Issued>, j: nat): multiset<ControlMessage> {
    if waiting == [] then multiset{}
    else (if waiting[0].from != j then multiset{waiting[0].msg} else multiset{}) + WaitingFor(waiting[1..], j)
  }

  /** What an inbox will make its node apply. */
  function Coming(inbox: seq<WireCommand>, self: string): multiset<ControlMessage> {
    if inbox == [] then multiset{} else Single(DecodeControl(inbox[0], self)) + Coming(inbox[1..], self)
  }

  lemma {:induction false} WaitingForAppend(a: seq<Issued>, b: seq<Issued>, j: nat)
    ensures WaitingFor(a + b, j) == WaitingFor(a, j) + WaitingFor(b, j)
  {
    if a == [] {
      assert a + b == b;
    } else {
      assert (a + b)[1..] == a[1..] + b;
      WaitingForAppend(a[1..], b, j);
    }
  }

  lemma {:induction false} ComingAppend(a: seq<WireCommand>, b: seq<WireCommand>, self: string)
    ensures Coming(a + b, self) == Coming(a, self) + Coming(b, self)
  {
    if a == [] {
      assert a + b == b;
    } else {
      assert (a + b)[1..] == a[1..] + b;
      ComingAppend(a[1..], b, self);
    }
  }

  /** Every command due at a node is applied there, in its inbox, or not yet published. */
  ghost predicate Accounted(c: Cluster, j: nat)
    requires c.Shaped() && j < |c.uids|
  {
    c.applied[j] + Coming(c.inboxes[j], c.uids[j]) + WaitingFor(c.waiting, j) == Due(c.issued, j)
  }

  lemma IssueAccounts(c: Cluster, i: nat, msg: ControlMessage, j: nat)
    requires c.Shaped() && i < |c.uids| && j < |c.uids| && Accounted(c, j)
    ensures Accounted(Next(c, Issue(i, msg)), j)
  {
    var d := Next(c, Issue(i, msg));
    WaitingForAppend(c.waiting, [Issued(i, msg)], j);
    assert d.issued[..|c.issued|] == c.issued;
    assert WaitingFor([Issued(i, msg)], j) == if i != j then multiset{msg} else multiset{};
  }

  lemma PublishAccounts(c: Cluster, k: nat, j: nat)
    requires c.Shaped() && k < |c.waiting| && j < |c.uids| && Accounted(c, j) && Distinct(c.uids)
    ensures Accounted(Next(c, Publish(k)), j)
  {
    hide WaitingFor, Coming, Due, EncodeControl, DecodeControl;
    var x := c.waiting[k];
    var w := EncodeControl(c.uids[x.from], x.msg);
    Removed(c.waiting, k, j);
    ComingAppend(c.inboxes[j], [w], c.uids[j]);
    PublishedOnce(c.uids, x, j);
    Regroup(c.applied[j], Coming(c.inboxes[j], c.uids[j]), WaitingFor(c.waiting[..k] + c.waiting[k + 1..], j), WaitingFor([x], j));
  }

  lemma Removed(waiting: seq<Issued>, k: nat, j: nat)
    requires k < |waiting|
    ensures WaitingFor(waiting, j) == WaitingFor(waiting[..k] + waiting[k + 1..], j) + WaitingFor([waiting[k]], j)
  {
    hide WaitingFor;
    var x := waiting[k];
    assert waiting == waiting[..k] + ([x] + waiting[k + 1..]);
    WaitingForAppend(waiting[..k], [x] + waiting[k + 1..], j);
    WaitingForAppend([x], waiting[k + 1..], j);
    WaitingForAppend(waiting[..k], waiting[k + 1..], j);
  }

  /** Of the commands on the bus a node will take exactly those of other nodes. */
  lemma PublishedOnce(uids: seq<string>, x: Issued, j: nat)
    requires Distinct(uids) && x.from < |uids| && j < |uids|
    ensures Coming([EncodeControl(uids[x.from], x.msg)], uids[j]) == WaitingFor([x], j)
  {
    hide EncodeControl, DecodeControl;
    ControlRoundTrip(uids[x.from], x.msg, uids[j]);
  }

  lemma Regroup(a: multiset<ControlMessage>, b: multiset<ControlMessage>, c: multiset<ControlMessage>, d: multiset<ControlMessage>)
    ensures a + b + (c + d) == a + (b + d) + c
  {
  }

  lemma DeliverAccounts(c: Cluster, i: nat, j: nat)
    requires c.Shaped() && i < |c.uids| && c.inboxes[i] != [] && j < |c.uids| && Accounted(c, j)
    ensures Accounted(Next(c, Deliver(i)), j)
  {
  }

  lemma {:induction false} RunAccounts(uids: seq<string>, actions: seq<Action>, c: Cluster)
    requires Reaches(uids, actions, c)
    ensures c.uids == uids && c.Shaped()
    ensures Distinct(uids) ==> forall j :: 0 <= j < |uids| ==> Accounted(c, j)
    decreases |actions|
  {
    if actions != [] {
      var n := |actions| - 1;
      hide Accounted, Next, Distinct;
      var b :| Reaches(uids, actions[..n], b) && b.Shaped() && Enabled(b, actions[n]) && c == Next(b, actions[n]);
      RunAccounts(uids, actions[..n], b);
      if Distinct(uids) {
        forall j | 0 <= j < |uids| ensures Accounted(c, j) {
          match actions[n]
          case Issue(i, msg) => IssueAccounts(b, i, msg, j);
          case Publish(k) => PublishAccounts(b, k, j);
          case Deliver(i) => DeliverAccounts(b, i, j);
        }
      }
    }
  }

  /** Every command issued so far has been applied exactly once by every node it is for. */
  ghost predicate AppliedOnce(c: Cluster)
    requires c.Shaped()
  {
    forall j :: 0 <= j < |c.uids| ==> c.applied[j] == Due(c.issued, j)
  }

  /** In any run of nodes with distinct uids, once nothing is under way every node has
      applied every command exactly once, the issuer included; and it never applied
      one more often than it was issued. */
  lemma ExactlyOnce(uids: seq<string>, actions: seq<Action>, c: Cluster)
    requires Reaches(uids, actions, c) && Distinct(uids)
    ensures c.Shaped() && |c.uids| == |uids|
    ensures c.Quiescent() ==> AppliedOnce(c)
    ensures forall j :: 0 <= j < |uids| ==> c.applied[j] <= Due(c.issued, j)
  {
    RunAccounts(uids, actions, c);
    forall j | 0 <= j < |uids| ensures c.applied[j] <= Due(c.issued, j) && (c.Quiescent() ==> c.applied[j] == Due(c.issued, j)) {
      assert Accounted(c, j);
    }
  }

  /** How often a command was issued, and how often by others than node `j`. */
  function Times(issued: seq<Issued>, msg: ControlMessage): nat {
    if issued == [] then 0
    else Times(issued[..|issued| - 1], msg) + if issued[|issued| - 1].msg == msg then 1 else 0
  }

  function TimesElsewhere(issued: seq<Issued>, msg: ControlMessage, j: nat): nat {
    if issued == [] then 0
    else
      var last := issued[|issued| - 1];
      TimesElsewhere(issued[..|issued| - 1], msg, j) + if last.msg == msg && last.from != j then 1 else 0
  }

  lemma {:induction false} DueCounts(issued: seq<Issued>, j: nat, msg: ControlMessage)
    ensures Due(issued, j)[msg] == if msg.NodePing? then TimesElsewhere(issued, msg, j) else Times(issued, msg)
  {
    if issued != [] { DueCounts(issued[..|issued| - 1], j, msg); }
  }

  /** At quiescence every node, its issuer included, has applied each unsubscribe and each
      disconnect as often as it was issued anywhere, and each ping as often as other
      nodes issued it. */
  lemma AppliedAsIssued(uids: seq<string>, actions: seq<Action>, c: Cluster, j: nat, msg: ControlMessage)
    requires Reaches(uids, actions, c) && Distinct(uids) && c.Quiescent() && j < |uids|
    ensures c.Shaped() && |c.applied| == |uids|
    ensures c.applied[j][msg] == match msg
              case Unsubscribe(_, _) => Times(c.issued, msg)
              case DisconnectUser(_, _, _, _, _) => Times(c.issued, msg)
              case NodePing(_) => TimesElsewhere(c.issued, msg, j)
  {
    hide Reaches;
    ExactlyOnce(uids, actions, c);
    DueCounts(c.issued, j, msg);
  }

  // ---- distinct uids are needed ----

  /** One command, published, and delivered to the first `m` nodes. */
  function OneCommand(uids: seq<string>, i: nat, msg: ControlMessage, m: nat): seq<Action> {
    if m == 0 then [Issue(i, msg), Publish(0)] else OneCommand(uids, i, msg, m - 1) + [Deliver(m - 1)]
  }

  /** The first `m` nodes have taken the command issued by node `i`. */
  ghost predicate Spread(c: Cluster, uids: seq<string>, i: nat, msg: ControlMessage, m: nat)
    requires i < |uids|
  {
    && c.Shaped() && c.uids == uids && c.issued == [Issued(i, msg)] && c.waiting == []
    && forall j :: 0 <= j < |uids| ==> At(c, i, msg, m, j)
  }

  ghost predicate At(c: Cluster, i: nat, msg: ControlMessage, m: nat, j: nat)
    requires c.Shaped() && i < |c.uids| && j < |c.uids|
  {
    && c.inboxes[j] == (if j < m then [] else [EncodeControl(c.uids[i], msg)])
    && c.applied[j] == if j == i || (j < m && c.uids[j] != c.uids[i]) then multiset{msg} else multiset{}
  }

  lemma SpreadNext(c: Cluster, uids: seq<string>, i: nat, msg: ControlMessage, m: nat)
    requires i < |uids| && m < |uids| && Spread(c, uids, i, msg, m)
    ensures Enabled(c, Deliver(m)) && Spread(Next(c, Deliver(m)), uids, i, msg, m + 1)
  {
    hide EncodeControl, DecodeControl;
    assert At(c, i, msg, m, m);
    ControlRoundTrip(uids[i], msg, uids[m]);
    var d, next := Next(c, Deliver(m)), m + 1;
    forall j | 0 <= j < |uids| ensures At(d, i, msg, next, j) {
      assert At(c, i, msg, m, j);
    }
  }

  lemma SpreadFirst(uids: seq<string>, i: nat, msg: ControlMessage)
    requires i < |uids| && AppliedAtHome(msg)
    ensures var b := Next(Init(uids), Issue(i, msg));
            |b.waiting| == 1 && Spread(Next(b, Publish(0)), uids, i, msg, 0)
  {
    hide EncodeControl;
    var b := Next(Init(uids), Issue(i, msg));
    assert b.waiting == [Issued(i, msg)];
    var d := Next(b, Publish(0));
    forall j | 0 <= j < |uids| ensures At(d, i, msg, 0, j) {
      assert d.inboxes[j] == [] + [EncodeControl(uids[i], msg)];
    }
  }

  lemma StartReached(uids: seq<string>)
    ensures Reaches(uids, [], Init(uids)) && Init(uids).Shaped()
  {
  }

  lemma ReachesNext(uids: seq<string>, actions: seq<Action>, b: Cluster, a: Action)
    requires Reaches(uids, actions, b) && b.Shaped() && Enabled(b, a)
    ensures Reaches(uids, actions + [a], Next(b, a))
  {
    hide Next;
    assert (actions + [a])[..|actions|] == actions;
  }

  lemma {:induction false} OneCommandRuns(uids: seq<string>, i: nat, msg: ControlMessage, m: nat) returns (c: Cluster)
    requires i < |uids| && m <= |uids| && AppliedAtHome(msg)
    ensures Reaches(uids, OneCommand(uids, i, msg, m), c) && Spread(c, uids, i, msg, m)
  {
    hide Next, Reaches, At;
    if m == 0 {
      var start := Init(uids);
      StartReached(uids);
      SpreadFirst(uids, i, msg);
      ReachesNext(uids, [], start, Issue(i, msg));
      assert [] + [Issue(i, msg)] == [Issue(i, msg)];
      ReachesNext(uids, [Issue(i, msg)], Next(start, Issue(i, msg)), Publish(0));
      assert [Issue(i, msg)] + [Publish(0)] == OneCommand(uids, i, msg, 0);
      c := Next(Next(start, Issue(i, msg)), Publish(0));
    } else {
      var b := OneCommandRuns(uids, i, msg, m - 1);
      SpreadNext(b, uids, i, msg, m - 1);
      ReachesNext(uids, OneCommand(uids, i, msg, m - 1), b, Deliver(m - 1));
      c := Next(b, Deliver(m - 1));
    }
  }

  /** Exactly-once application holds for all runs exactly when the uids are distinct:
      a node that shares the issuer's uid takes the command for its own and never
      applies it. */
  lemma ExactlyOnceNeedsDistinctUids(uids: seq<string>)
    ensures Distinct(uids) <==>
            forall actions, c :: Reaches(uids, actions, c) && c.Shaped() && c.Quiescent() ==> AppliedOnce(c)
  {
    if Distinct(uids) {
      hide Reaches, AppliedOnce;
      forall actions, c | Reaches(uids, actions, c) && c.Shaped() && c.Quiescent() ensures AppliedOnce(c) {
        ExactlyOnce(uids, actions, c);
      }
    } else {
      hide Reaches, AppliedOnce, Cluster.Quiescent;
      var i, j :| 0 <= i < j < |uids| && uids[i] == uids[j];
      var actions, c := SharedUid(uids, i, j);
    }
  }

  lemma SharedUid(uids: seq<string>, i: nat, j: nat) returns (actions: seq<Action>, c: Cluster)
    requires i < j < |uids| && uids[i] == uids[j]
    ensures Reaches(uids, actions, c) && c.Shaped() && c.Quiescent() && !AppliedOnce(c)
  {
    hide Reaches;
    var msg := Unsubscribe("", "");
    actions := OneCommand(uids, i, msg, |uids|);
    c := OneCommandRuns(uids, i, msg, |uids|);
    var all := |uids|;
    forall k | 0 <= k < |c.inboxes| ensures c.inboxes[k] == [] {
      assert At(c, i, msg, all, k);
    }
    assert At(c, i, msg, all, j);
    assert c.applied[j] == multiset{} && [Issued(i, msg)][..0] == [];
    assert Due(c.issued, j) == multiset{msg};
  }
}
