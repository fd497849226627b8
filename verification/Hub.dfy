/** The hub: connections by id, ids by user, and channel subscriptions in sixteen
    shards (crates/centrifugo-core/src/hub.rs). */
module HubModel {
  import opened Common
  import opened Types

  datatype ProtocolType = Json | Protobuf

  /** A connection's handle. `tx` names its writer queue and, if `hasCtrl`, the queue
      of its reader's control signals. */
  datatype ClientHandle = ClientHandle(id: ClientId, user: string, proto: ProtocolType, tx: nat, hasCtrl: bool)

  const SHARDS := 16

  type Subs = map<Channel, set<ClientId>>

  /** A list of handles without repetition that names exactly these ids. */
  ghost predicate Lists(handles: seq<ClientHandle>, ids: set<ClientId>, conns: map<ClientId, ClientHandle>) {
    && (forall h :: h in handles ==> h.id in ids && h.id in conns && conns[h.id] == h)
    && (forall id :: id in ids && id in conns ==> conns[id] in handles)
    && (forall i, j :: 0 <= i < j < |handles| ==> handles[i] != handles[j])
  }

  lemma {:induction false} ListsCount(handles: seq<ClientHandle>, ids: set<ClientId>, conns: map<ClientId, ClientHandle>)
    requires Lists(handles, ids, conns) && ids <= conns.Keys && forall id :: id in conns ==> conns[id].id == id
    ensures |handles| == |ids|
  {
    if handles == [] {
      assert ids == {};
    } else {
      var n := |handles| - 1;
      var last := handles[n];
      assert last in handles;
      ListsCount(handles[..n], ids - {last.id}, conns);
    }
  }

  ghost predicate InSubs(subs: Subs, id: ClientId, channel: Channel) {
    channel in subs && id in subs[channel]
  }

  function ShardOf(hash: Channel -> nat, channel: Channel): nat { hash(channel) % SHARDS }

  /** The shards hold the relation and nothing else: every channel in its hash shard,
      with at least one subscriber. */
  ghost predicate Flat(shards: seq<Subs>, hash: Channel -> nat, rel: Relation) {
    && |shards| == SHARDS
    && (forall i, ch :: 0 <= i < SHARDS && ch in shards[i] ==> i == ShardOf(hash, ch) && shards[i][ch] != {})
    && (forall id, ch :: (id, ch) in rel <==> InSubs(shards[ShardOf(hash, ch)], id, ch))
  }

  function WithoutClients(rel: Relation, ids: set<ClientId>): Relation {
    set p | p in rel && p.0 !in ids
  }

  lemma OneMoreWithout(rel: Relation, ids: set<ClientId>, id: ClientId)
    ensures WithoutClient(WithoutClients(rel, ids), id) == WithoutClients(rel, ids + {id})
    ensures WithoutClients(rel, {}) == rel
  {
  }

  function SubscribersOf(rel: Relation, channel: Channel): set<ClientId> {
    set p | p in rel && p.1 == channel :: p.0
  }

  function ChannelsOf(rel: Relation): set<Channel> {
    set p | p in rel :: p.1
  }

  /** A shard without one client; channels left empty are dropped. */
  function Without(subs: Subs, id: ClientId): Subs {
    map ch | ch in subs && subs[ch] - {id} != {} :: subs[ch] - {id}
  }

  function IdsAt(subs: Subs, channel: Channel): set<ClientId> {
    if channel in subs then subs[channel] else {}
  }

  lemma FlatSubscribe(shards: seq<Subs>, hash: Channel -> nat, rel: Relation, id: ClientId, channel: Channel)
    requires Flat(shards, hash, rel)
    ensures var i := ShardOf(hash, channel);
            Flat(shards[i := shards[i][channel := IdsAt(shards[i], channel) + {id}]], hash, rel + {(id, channel)})
  {
  }

  lemma FlatUnsubscribe(shards: seq<Subs>, hash: Channel -> nat, rel: Relation, id: ClientId, channel: Channel)
    requires Flat(shards, hash, rel)
    ensures var i := ShardOf(hash, channel);
            var ids := IdsAt(shards[i], channel) - {id};
            Flat(shards[i := if ids == {} then shards[i] - {channel} else shards[i][channel := ids]], hash, rel - {(id, channel)})
  {
    var i := ShardOf(hash, channel);
    var ids := IdsAt(shards[i], channel) - {id};
    var t := shards[i := if ids == {} then shards[i] - {channel} else shards[i][channel := ids]];
    forall x, ch ensures (x, ch) in rel - {(id, channel)} <==> InSubs(t[ShardOf(hash, ch)], x, ch) {
      assert (x, ch) in rel <==> InSubs(shards[ShardOf(hash, ch)], x, ch);
      if ch == channel {
        assert x in IdsAt(shards[i], channel) <==> (x, ch) in rel;
        assert x in ids <==> x in IdsAt(shards[i], channel) && x != id;
      }
    }
  }

  lemma FlatRemove(shards: seq<Subs>, hash: Channel -> nat, rel: Relation, id: ClientId, t: seq<Subs>)
    requires Flat(shards, hash, rel)
    requires |t| == SHARDS && forall j :: 0 <= j < SHARDS ==> t[j] == Without(shards[j], id)
    ensures Flat(t, hash, WithoutClient(rel, id))
  {
    forall x, ch ensures (x, ch) in WithoutClient(rel, id) <==> InSubs(t[ShardOf(hash, ch)], x, ch) {
      var j := ShardOf(hash, ch);
      assert (x, ch) in rel <==> InSubs(shards[j], x, ch);
      if x != id && InSubs(shards[j], x, ch) { assert x in shards[j][ch] - {id}; }
    }
  }

  /** A flat relation has a pair for a channel exactly where a shard has the channel. */
  lemma FlatSubscribers(shards: seq<Subs>, hash: Channel -> nat, rel: Relation, channel: Channel)
    requires Flat(shards, hash, rel)
    ensures SubscribersOf(rel, channel) == IdsAt(shards[ShardOf(hash, channel)], channel)
    ensures channel in ChannelsOf(rel) <==> channel in shards[ShardOf(hash, channel)]
  {
    var subs := shards[ShardOf(hash, channel)];
    forall id ensures id in SubscribersOf(rel, channel) <==> id in IdsAt(subs, channel) {
      assert (id, channel) in rel <==> InSubs(subs, id, channel);
      if (id, channel) in rel { assert (id, channel).0 in SubscribersOf(rel, channel); }
    }
    if channel in subs {
      var id :| id in subs[channel];
      assert (id, channel) in rel && (id, channel).1 in ChannelsOf(rel);
    }
    if channel in ChannelsOf(rel) {
      var p :| p in rel && p.1 == channel;
      assert p == (p.0, channel);
    }
  }

  /** The users index is exactly the inverse of the connection table. */
  ghost predicate Inverse(conns: map<ClientId, ClientHandle>, users: map<string, set<ClientId>>) {
    && (forall id :: id in conns ==> conns[id].user in users && id in users[conns[id].user])
    && (forall u, id :: u in users && id in users[u] ==> id in conns && conns[id].user == u)
    && (forall u :: u in users ==> users[u] != {})
  }

  /** Registering keeps the index exact exactly when the id is new or keeps its user. */
  lemma InverseAdd(conns: map<ClientId, ClientHandle>, users: map<string, set<ClientId>>, handle: ClientHandle)
    requires Inverse(conns, users)
    ensures var ids := (if handle.user in users then users[handle.user] else {}) + {handle.id};
            Inverse(conns[handle.id := handle], users[handle.user := ids]) <==>
            handle.id !in conns || conns[handle.id].user == handle.user
  {
    var ids := (if handle.user in users then users[handle.user] else {}) + {handle.id};
    var conns', users' := conns[handle.id := handle], users[handle.user := ids];
    assert handle.id in ids;
    if handle.id in conns && conns[handle.id].user != handle.user {
      var u := conns[handle.id].user;
      assert u in users' && handle.id in users'[u] && conns'[handle.id].user != u;
      assert !Inverse(conns', users');
    } else {
      forall id | id in conns' ensures conns'[id].user in users' && id in users'[conns'[id].user] {
        if id != handle.id { assert id in users[conns[id].user]; }
      }
      forall u, id | u in users' && id in users'[u] ensures id in conns' && conns'[id].user == u {
        if u != handle.user || id != handle.id { assert u in users && id in users[u]; }
      }
    }
  }

  class Hub {
    var conns: map<ClientId, ClientHandle>
    var users: map<string, set<ClientId>>
    const shards: array<Subs>
    /** The hasher's value for a channel. */
    const hash: Channel -> nat

    /** Who is subscribed to what, in one flat relation. */
    ghost var rel: Relation

    ghost predicate ShardsValid()
      reads this, shards
    {
      Flat(shards[..], hash, rel)
    }

    ghost predicate ConnsValid() reads this {
      forall id :: id in conns ==> conns[id].id == id
    }

    ghost predicate UsersInverse() reads this { Inverse(conns, users) }

    ghost predicate Valid()
      reads this, shards
    {
      ShardsValid() && ConnsValid() && UsersInverse()
    }

    constructor (hash: Channel -> nat)
      ensures Valid() && fresh(shards) && conns == map[] && rel == {} && this.hash == hash
    {
      this.hash := hash;
      conns, users, rel := map[], map[], {};
      shards := new Subs[SHARDS](_ => map[]);
    }

    /** Registers a connection. The users index stays the table's inverse exactly
        when the id is new or keeps its user. */
    method Add(handle: ClientHandle)
      requires Valid()
      modifies this`conns, this`users
      ensures conns == old(conns)[handle.id := handle]
      ensures ShardsValid() && ConnsValid()
      ensures UsersInverse() <==> handle.id !in old(conns) || old(conns)[handle.id].user == handle.user
    {
      InverseAdd(conns, users, handle);
      conns := conns[handle.id := handle];
      var ids := if handle.user in users then users[handle.user] else {};
      users := users[handle.user := ids + {handle.id}];
    }

    /** Removes a connection from the table, the users index and every channel;
        reports whether it was in the table. */
    method Remove(id: ClientId) returns (wasPresent: bool)
      requires Valid()
      modifies this`conns, this`users, this`rel, shards
      ensures Valid()
      ensures conns == old(conns) - {id}
      ensures rel == WithoutClient(old(rel), id)
      ensures wasPresent <==> id in old(conns)
    {
      wasPresent := id in conns;
      if wasPresent {
        RemoveFromUsers(id, conns[id].user);
      }
      RetainOthers(id);
    }

    method RemoveFromUsers(id: ClientId, user: string)
      requires Valid() && id in conns && conns[id].user == user
      modifies this`conns, this`users
      ensures Valid() && conns == old(conns) - {id}
    {
      conns := conns - {id};
      var ids := users[user] - {id};
      if ids == {} {
        users := users - {user};
      } else {
        users := users[user := ids];
      }
    }

    /** One pass over all shards that takes `id` out of every channel. */
    method RetainOthers(id: ClientId)
      requires ShardsValid()
      modifies this`rel, shards
      ensures ShardsValid() && rel == WithoutClient(old(rel), id)
    {
      var i := 0;
      while i < shards.Length
        invariant i <= SHARDS
        invariant rel == old(rel)
        invariant forall j :: i <= j < SHARDS ==> shards[j] == old(shards[j])
        invariant forall j :: 0 <= j < i ==> shards[j] == Without(old(shards[j]), id)
      {
        shards[i] := Without(shards[i], id);
        i := i + 1;
      }
      FlatRemove(old(shards[..]), hash, rel, id, shards[..]);
      rel := WithoutClient(rel, id);
    }

    method Subscribe(id: ClientId, channel: Channel)
      requires Valid()
      modifies this`rel, shards
      ensures Valid() && rel == old(rel) + {(id, channel)}
    {
      var i := ShardOf(hash, channel);
      var ids := if channel in shards[i] then shards[i][channel] else {};
      FlatSubscribe(shards[..], hash, rel, id, channel);
      shards[i] := shards[i][channel := ids + {id}];
      rel := rel + {(id, channel)};
    }

    method Unsubscribe(id: ClientId, channel: Channel)
      requires Valid()
      modifies this`rel, shards
      ensures Valid() && rel == old(rel) - {(id, channel)}
    {
      var i := ShardOf(hash, channel);
      FlatUnsubscribe(shards[..], hash, rel, id, channel);
      if channel in shards[i] {
        var ids := shards[i][channel] - {id};
        if ids == {} {
          shards[i] := shards[i] - {channel};
        } else {
          shards[i] := shards[i][channel := ids];
        }
      } else {
        assert shards[i] - {channel} == shards[i];
        assert shards[..][i := shards[i]] == shards[..];
      }
      rel := rel - {(id, channel)};
    }

    /** The registered subscribers of a channel, each once. */
    method Subscribers(channel: Channel) returns (handles: seq<ClientHandle>)
      requires Valid()
      ensures Lists(handles, SubscribersOf(rel, channel), conns)
    {
      var subs := shards[ShardOf(hash, channel)];
      FlatSubscribers(shards[..], hash, rel, channel);
      if channel !in subs { return []; }
      handles := HandlesOf(subs[channel]);
    }

    /** The connections of a user, each once. */
    method UserClients(user: string) returns (handles: seq<ClientHandle>)
      requires Valid()
      ensures Lists(handles, (set id | id in conns && conns[id].user == user), conns)
    {
      ghost var own := set id | id in conns && conns[id].user == user;
      if user !in users {
        assert own == {};
        return [];
      }
      handles := HandlesOf(users[user]);
      assert own == users[user];
    }

    /** Looks the ids up, skipping unregistered ones. */
    method HandlesOf(ids: set<ClientId>) returns (handles: seq<ClientHandle>)
      requires ConnsValid()
      ensures Lists(handles, ids, conns)
    {
      handles := [];
      var left := ids;
      while left != {}
        invariant left <= ids && Lists(handles, ids - left, conns)
        decreases |left|
      {
        var id :| id in left;
        if id in conns {
          assert conns[id] !in handles;
          handles := handles + [conns[id]];
        }
        left := left - {id};
        assert ids - left == (ids - (left + {id})) + {id};
      }
      assert ids - left == ids;
    }

    /** The number of channels with a subscriber: the shard sizes add up to it. */
    method NumChannels() returns (n: nat)
      requires Valid()
      ensures n == |ChannelsOf(rel)|
    {
      n := 0;
      ghost var seen: set<Channel> := {};
      var i := 0;
      while i < shards.Length
        invariant i <= SHARDS && n == |seen|
        invariant forall ch :: ch in seen <==> ShardOf(hash, ch) < i && ch in shards[ShardOf(hash, ch)]
      {
        assert forall ch :: ch in shards[..][i] ==> ShardOf(hash, ch) == i;
        assert seen !! shards[i].Keys;
        assert |seen + shards[i].Keys| == |seen| + |shards[i].Keys|;
        n := n + |shards[i]|;
        seen := seen + shards[i].Keys;
        i := i + 1;
      }
      forall ch ensures ch in seen <==> ch in ChannelsOf(rel) {
        FlatSubscribers(shards[..], hash, rel, ch);
      }
      assert seen == ChannelsOf(rel);
    }

    /** All channels with a subscriber, each once. */
    method Channels() returns (out: seq<Channel>)
      requires Valid()
      ensures forall ch :: ch in out <==> ch in ChannelsOf(rel)
      ensures forall i, j :: 0 <= i < j < |out| ==> out[i] != out[j]
    {
      out := [];
      var i := 0;
      while i < shards.Length
        invariant i <= SHARDS
        invariant forall ch :: ch in out <==> ShardOf(hash, ch) < i && ch in shards[ShardOf(hash, ch)]
        invariant forall k, j :: 0 <= k < j < |out| ==> out[k] != out[j]
      {
        assert forall ch :: ch in shards[..][i] ==> ShardOf(hash, ch) == i;
        out := AppendKeys(out, shards[i].Keys);
        i := i + 1;
      }
      forall ch ensures ch in out <==> ch in ChannelsOf(rel) {
        FlatSubscribers(shards[..], hash, rel, ch);
      }
    }
  }

  method AppendKeys(before: seq<Channel>, keys: set<Channel>) returns (out: seq<Channel>)
    requires forall k :: k in keys ==> k !in before
    requires forall i, j :: 0 <= i < j < |before| ==> before[i] != before[j]
    ensures forall ch :: ch in out <==> ch in before || ch in keys
    ensures forall i, j :: 0 <= i < j < |out| ==> out[i] != out[j]
  {
    out := before;
    var left := keys;
    while left != {}
      invariant left <= keys
      invariant forall ch :: ch in out <==> ch in before || ch in keys - left
      invariant forall i, j :: 0 <= i < j < |out| ==> out[i] != out[j]
      decreases |left|
    {
      var k :| k in left;
      out := out + [k];
      left := left - {k};
    }
  }
}
