/** The in-memory engine: crates/centrifugo-core/src/memory.rs. The clock and the
    random epoch of a new stream are parameters. */
module Memory {
  import opened Common
  import opened Types
  import opened StreamModel

  /** `i64::MAX`, the expiry of what never expires. */
  const NEVER: int := 0x7FFF_FFFF_FFFF_FFFF

  /** One channel's ring: its newest offset, its buffered publications, oldest
      first, and when these and the whole stream expire. */
  datatype Ring = Ring(offset: nat, epoch: Epoch, pubs: seq<Publication>, expireAt: int, metaExpireAt: int)

  function NewRing(epoch: Epoch): Ring { Ring(0, epoch, [], NEVER, NEVER) }

  /** The ring shows exactly the retained part of the stream. */
  ghost predicate Represents(m: Ring, s: Stream) {
    s.Valid() && m.offset == |s.log| && m.epoch == s.epoch && m.pubs == s.Retained()
  }

  /** The stream as the next access finds it: gone once its meta expired, emptied
      once its publications expired. */
  ghost function Live(s: Stream, m: Ring, now: int): Option<Stream> {
    if now > m.metaExpireAt then None
    else if now > m.expireAt then Some(DropAll(s))
    else Some(s)
  }

  ghost function OrFresh(s: Option<Stream>, epoch: Epoch): Stream {
    match s
    case None => Fresh(epoch)
    case Some(x) => x
  }

  /** The stream as the next access sees it, by its parts: past the meta expiry it is
      gone; until then its epoch and its position stay, and lifetime expiry drops what is
      buffered and nothing else. */
  lemma LiveExactly(s: Stream, m: Ring, now: int, newEpoch: Epoch)
    requires s.Valid()
    ensures Live(s, m, now) == None <==> now > m.metaExpireAt
    ensures now <= m.metaExpireAt ==>
              var t := Live(s, m, now).value;
              && t.epoch == s.epoch && t.log == s.log && t.Position() == s.Position()
              && (now <= m.expireAt ==> t.Retained() == s.Retained())
              && (now > m.expireAt ==> t.Retained() == [])
              && OrFresh(Live(s, m, now), newEpoch) == t
    ensures now > m.metaExpireAt ==>
              var t := OrFresh(Live(s, m, now), newEpoch);
              t.Position() == StreamPosition(0, newEpoch) && t.Retained() == []
  {
  }

  /** A client that had everything still recovers after the publications expired, as
      long as the stream itself did not; one that missed something does not. */
  lemma RecoveryAfterLifetime(s: Stream, m: Ring, now: int, offset: u64)
    requires s.Valid() && |s.log| < TWO_64 && m.expireAt < now <= m.metaExpireAt
    ensures var t := Live(s, m, now);
            t.Some? && (Recovered(t.value.Since(offset), t.value.Position(), offset, s.epoch) <==> offset == |s.log|)
  {
    RecoveryIsExact(DropAll(s), offset, s.epoch);
  }

  function NewPublication(s: Stream, entry: Entry): Publication {
    Publication(entry.data, entry.info, |s.log| + 1, 0, 0)
  }

  lemma RetainedGrows(s: Stream, entry: Entry, j: nat)
    requires s.Valid() && j <= |s.log| - s.dropped
    ensures |s.Retained() + [NewPublication(s, entry)]| == |s.log| + 1 - s.dropped
    ensures (s.Retained() + [NewPublication(s, entry)])[j] == At(s.log + [entry], s.dropped + j)
  {
    AfterAt(s, s.dropped);
  }

  /** Trimming from the front drops the oldest retained publications. */
  lemma TrimmedRetained(s: Stream, entry: Entry, size: nat)
    requires s.Valid()
    ensures Append(s, entry, size).Valid()
    ensures Append(s, entry, size).Retained() == Newest(s.Retained() + [NewPublication(s, entry)], size)
  {
    var r := Append(s, entry, size);
    AfterAt(r, r.dropped);
    var all := s.Retained() + [NewPublication(s, entry)];
    RetainedGrows(s, entry, 0);
    forall i | 0 <= i < |r.Retained()| ensures r.Retained()[i] == all[r.dropped - s.dropped + i] {
      RetainedGrows(s, entry, r.dropped - s.dropped + i);
    }
  }

  function Newest<T>(all: seq<T>, size: nat): seq<T> {
    all[if |all| > size then |all| - size else 0..]
  }

  lemma NewestIsRetained(s: Stream, entry: Entry, size: nat)
    requires s.Valid() && size > 0
    ensures var kept := Append(s, entry, size).Retained();
            kept != [] && kept[|kept| - 1] == NewPublication(s, entry)
  {
    AfterAt(Append(s, entry, size), Append(s, entry, size).dropped);
  }

  /** Drops publications from the front until at most `size` are left. */
  method TrimFront(all: seq<Publication>, size: nat) returns (pubs: seq<Publication>)
    ensures pubs == Newest(all, size)
  {
    pubs := all;
    while |pubs| > size
      invariant |pubs| <= |all| && pubs == all[|all| - |pubs|..]
      invariant if |all| > size then |pubs| >= size else |pubs| == |all|
    {
      pubs := pubs[1..];
    }
  }

  /** One append to a ring. */
  method AppendToRing(ring: Ring, entry: Entry, size: nat, expireAt: int, metaExpireAt: int, ghost s: Stream) returns (r: Ring)
    requires Represents(ring, s)
    ensures Represents(r, Append(s, entry, size))
    ensures r.expireAt == expireAt && r.metaExpireAt == metaExpireAt
  {
    var offset := ring.offset + 1;
    var pubs := TrimFront(ring.pubs + [Publication(entry.data, entry.info, offset, 0, 0)], size);
    TrimmedRetained(s, entry, size);
    r := Ring(offset, ring.epoch, pubs, expireAt, metaExpireAt);
  }

  /** Reading a channel prolongs nothing: a ring that is still there keeps its meta
      expiry, and its lifetime unless that is over; a missing one is created without
      either. */
  ghost predicate RingRead(a: map<Channel, Ring>, b: map<Channel, Ring>, channel: Channel, now: int) {
    && channel in a && a - {channel} == b - {channel}
    && if channel in b && now <= b[channel].metaExpireAt then
         && a[channel].metaExpireAt == b[channel].metaExpireAt
         && a[channel].expireAt == (if now > b[channel].expireAt then NEVER else b[channel].expireAt)
       else a[channel].metaExpireAt == a[channel].expireAt == NEVER
  }

  /** A publish starts both expiries of its channel again. */
  ghost predicate RingRestarted(a: map<Channel, Ring>, b: map<Channel, Ring>, channel: Channel, lifetime: nat, metaTtl: nat, now: int) {
    && channel in a && a - {channel} == b - {channel}
    && a[channel].expireAt == now + lifetime && a[channel].metaExpireAt == if metaTtl > 0 then now + metaTtl else NEVER
  }

  /** Who is present where, and how they are shown. */
  type Presences = map<Channel, map<ClientId, ClientInfo>>

  /** The clients present in a channel. */
  function PresentIn(presence: Presences, channel: Channel): map<ClientId, ClientInfo> {
    if channel in presence then presence[channel] else map[]
  }

  /** One entry set, all others as they were. */
  ghost predicate PresenceSet(a: Presences, b: Presences, channel: Channel, client: ClientId, info: ClientInfo) {
    forall ch :: PresentIn(a, ch) == if ch == channel then PresentIn(b, ch)[client := info] else PresentIn(b, ch)
  }

  /** One entry gone, all others as they were. */
  ghost predicate PresenceGone(a: Presences, b: Presences, channel: Channel, client: ClientId) {
    forall ch :: PresentIn(a, ch) == if ch == channel then PresentIn(b, ch) - {client} else PresentIn(b, ch)
  }

  class MemoryEngine {
    var presence: Presences
    var history: map<Channel, Ring>
    const metaTtl: nat

    /** What every channel's history stands for. */
    ghost var streams: map<Channel, Stream>
    /** Who is present where, in one flat relation. */
    ghost var present: Relation

    ghost predicate HistoryValid()
      reads this`history, this`streams
    {
      && streams.Keys == history.Keys
      && (forall ch :: ch in history ==> Represents(history[ch], streams[ch]))
    }

    ghost predicate PresenceValid()
      reads this`presence, this`present
    {
      && (forall ch :: ch in presence ==> presence[ch] != map[])
      && (forall c, ch :: (c, ch) in present <==> c in Present(ch))
    }

    ghost predicate Valid() reads this { HistoryValid() && PresenceValid() }

    function Present(channel: Channel): map<ClientId, ClientInfo>
      reads this`presence
    {
      PresentIn(presence, channel)
    }

    ghost function LiveAt(channel: Channel, now: int): Option<Stream>
      reads this`history, this`streams
    {
      if channel in streams && channel in history then Live(streams[channel], history[channel], now) else None
    }

    constructor (metaTtl: nat)
      ensures Valid() && this.metaTtl == metaTtl && history == map[] && presence == map[] && present == {}
    {
      this.metaTtl := metaTtl;
      presence, history, streams, present := map[], map[], map[], {};
    }

    method EvictIfExpired(channel: Channel, now: int)
      requires HistoryValid()
      modifies this`history, this`streams
      ensures HistoryValid()
      ensures old(LiveAt(channel, now)) == None ==> streams == old(streams) - {channel}
      ensures old(LiveAt(channel, now)).Some? ==> streams == old(streams)[channel := old(LiveAt(channel, now)).value]
      ensures channel in streams <==> channel in old(history) && now <= old(history)[channel].metaExpireAt
      ensures channel in streams ==>
                && history[channel].offset == old(history)[channel].offset && history[channel].epoch == old(history)[channel].epoch
                && history[channel].pubs == if now > old(history)[channel].expireAt then [] else old(history)[channel].pubs
      ensures history - {channel} == old(history) - {channel}
      ensures channel in history ==> channel in old(history) && history[channel].metaExpireAt == old(history)[channel].metaExpireAt
      ensures channel in history ==>
                history[channel].expireAt == if now > old(history)[channel].expireAt then NEVER else old(history)[channel].expireAt
    {
      if channel in history && now > history[channel].metaExpireAt {
        history, streams := history - {channel}, streams - {channel};
        return;
      }
      if channel in history && now > history[channel].expireAt {
        history := history[channel := history[channel].(pubs := [], expireAt := NEVER)];
        streams := streams[channel := DropAll(streams[channel])];
      }
    }

    /** Makes sure the channel has a stream, after lazy expiry. */
    method Entry(channel: Channel, now: int, newEpoch: Epoch)
      requires HistoryValid()
      modifies this`history, this`streams
      ensures HistoryValid() && channel in history
      ensures streams == old(streams)[channel := OrFresh(old(LiveAt(channel, now)), newEpoch)]
      ensures RingRead(history, old(history), channel, now)
    {
      EvictIfExpired(channel, now);
      if channel !in history {
        history := history[channel := NewRing(newEpoch)];
        streams := streams[channel := Fresh(newEpoch)];
        assert Fresh(newEpoch).Retained() == [];
      }
    }

    /** Appends one publication to the live stream, trims it to `size`, restarts both
        expiries and returns the offset assigned. */
    method AddToHistory(channel: Channel, entry: Entry, size: nat, lifetime: nat, now: int, newEpoch: Epoch) returns (offset: nat)
      requires HistoryValid()
      modifies this`history, this`streams
      ensures HistoryValid()
      ensures streams == old(streams)[channel := Append(OrFresh(old(LiveAt(channel, now)), newEpoch), entry, size)]
      ensures offset == |streams[channel].log|
      ensures RingRestarted(history, old(history), channel, lifetime, metaTtl, now)
    {
      hide HistoryValid, LiveAt, OrFresh, Append;
      Entry(channel, now, newEpoch);
      offset := AppendAt(channel, entry, size, now + lifetime, if metaTtl > 0 then now + metaTtl else NEVER);
    }

    method AppendAt(channel: Channel, entry: Entry, size: nat, expireAt: int, metaExpireAt: int) returns (offset: nat)
      requires HistoryValid() && channel in history
      modifies this`history, this`streams
      ensures HistoryValid()
      ensures streams == old(streams)[channel := Append(old(streams)[channel], entry, size)]
      ensures channel in history && offset == history[channel].offset == |streams[channel].log|
      ensures history - {channel} == old(history) - {channel}
      ensures history[channel].expireAt == expireAt && history[channel].metaExpireAt == metaExpireAt
    {
      ghost var stream := Append(streams[channel], entry, size);
      var ring := AppendToRing(history[channel], entry, size, expireAt, metaExpireAt, streams[channel]);
      history := history[channel := ring];
      streams := streams[channel := stream];
      offset := ring.offset;
    }

    /** Publishing: an append when the channel keeps history, then the message to
        route. The message carries the offset of the append, or 0. */
    method Publish(channel: Channel, entry: Entry, size: nat, lifetime: nat, now: int, newEpoch: Epoch) returns (routed: Publication)
      requires HistoryValid()
      modifies this`history, this`streams
      ensures HistoryValid()
      ensures size > 0 && lifetime > 0 ==>
                && streams == old(streams)[channel := Append(OrFresh(old(LiveAt(channel, now)), newEpoch), entry, size)]
                && streams[channel].Retained() != []
                && routed == streams[channel].Retained()[|streams[channel].Retained()| - 1]
                && routed == Publication(entry.data, entry.info, |streams[channel].log|, 0, 0)
                && RingRestarted(history, old(history), channel, lifetime, metaTtl, now)
      ensures size == 0 || lifetime == 0 ==>
                streams == old(streams) && history == old(history) && routed == Publication(entry.data, entry.info, 0, 0, 0)
    {
      var offset := 0;
      if size > 0 && lifetime > 0 {
        ghost var live := OrFresh(LiveAt(channel, now), newEpoch);
        offset := AddToHistory(channel, entry, size, lifetime, now, newEpoch);
        NewestIsRetained(live, entry, size);
      }
      routed := Publication(entry.data, entry.info, offset, 0, 0);
    }

    method History(channel: Channel, now: int, newEpoch: Epoch) returns (pubs: seq<Publication>, top: StreamPosition)
      requires HistoryValid()
      modifies this`history, this`streams
      ensures HistoryValid()
      ensures streams == old(streams)[channel := OrFresh(old(LiveAt(channel, now)), newEpoch)]
      ensures pubs == streams[channel].Retained() && top == streams[channel].Position()
      ensures RingRead(history, old(history), channel, now)
    {
      Entry(channel, now, newEpoch);
      pubs := history[channel].pubs;
      top := StreamPosition(history[channel].offset, history[channel].epoch);
    }

    /** The publications after `offset` that the live stream still has. */
    method HistorySince(channel: Channel, offset: nat, epoch: Epoch, now: int, newEpoch: Epoch)
      returns (pubs: seq<Publication>, top: StreamPosition)
      requires HistoryValid()
      modifies this`history, this`streams
      ensures HistoryValid()
      ensures streams == old(streams)[channel := OrFresh(old(LiveAt(channel, now)), newEpoch)]
      ensures pubs == streams[channel].Since(offset) && top == streams[channel].Position()
      ensures RingRead(history, old(history), channel, now)
    {
      Entry(channel, now, newEpoch);
      var ring := history[channel];
      top := StreamPosition(ring.offset, ring.epoch);
      if top.offset == offset && top.epoch == epoch {
        return [], top;
      }
      pubs := LaterThan(ring.pubs, offset);
      SinceIsFilter(streams[channel], offset);
    }

    /** Forgets a channel's history, its position included. */
    method RemoveHistory(channel: Channel)
      requires HistoryValid()
      modifies this`history, this`streams
      ensures HistoryValid()
      ensures streams == old(streams) - {channel} && history == old(history) - {channel}
    {
      history, streams := history - {channel}, streams - {channel};
    }

    /** Memory presence has no expiry: an entry stays until it is removed. */
    method AddPresence(channel: Channel, client: ClientId, info: ClientInfo)
      requires PresenceValid()
      modifies this`presence, this`present
      ensures PresenceValid()
      ensures PresenceSet(presence, old(presence), channel, client, info)
      ensures present == old(present) + {(client, channel)}
    {
      var members := if channel in presence then presence[channel] else map[];
      presence := presence[channel := members[client := info]];
      present := present + {(client, channel)};
      assert client in presence[channel];
    }

    method RemovePresence(channel: Channel, client: ClientId)
      requires PresenceValid()
      modifies this`presence, this`present
      ensures PresenceValid()
      ensures PresenceGone(presence, old(presence), channel, client)
      ensures present == old(present) - {(client, channel)}
    {
      present := present - {(client, channel)};
      if channel in presence {
        var members := presence[channel] - {client};
        if members == map[] {
          presence := presence - {channel};
        } else {
          presence := presence[channel := members];
        }
      }
    }

    /** Entries, and the distinct users among them. */
    method PresenceStats(channel: Channel) returns (numClients: u32, numUsers: u32)
      ensures numClients == |Present(channel)| % TWO_32
      ensures numUsers == |set c | c in Present(channel) :: Present(channel)[c].user| % TWO_32
    {
      var members := Present(channel);
      if channel !in presence {
        return 0, 0;
      }
      numClients := |members| % TWO_32;
      var users := set c | c in members :: members[c].user;
      numUsers := |users| % TWO_32;
    }
  }

  /** The publications with an offset above `offset`, in order. */
  method LaterThan(all: seq<Publication>, offset: nat) returns (pubs: seq<Publication>)
    ensures pubs == Filtered(all, offset)
  {
    pubs := [];
    var i := 0;
    while i < |all|
      invariant i <= |all| && pubs == Filtered(all[..i], offset)
    {
      assert all[..i + 1][..i] == all[..i];
      if all[i].offset > offset { pubs := pubs + [all[i]]; }
      i := i + 1;
    }
    assert all[..i] == all;
  }

  function Filtered(all: seq<Publication>, offset: nat): seq<Publication> {
    if all == [] then []
    else
      var last := all[|all| - 1];
      Filtered(all[..|all| - 1], offset) + if last.offset > offset then [last] else []
  }

  /** Filtering a run of consecutive offsets cuts its front off. */
  lemma {:induction false} FilteredRange(all: seq<Publication>, first: nat, offset: nat)
    requires forall i :: 0 <= i < |all| ==> all[i].offset == first + i
    ensures Filtered(all, offset) == all[CutAt(|all|, first, offset)..]
  {
    if all != [] {
      var n := |all| - 1;
      FilteredRange(all[..n], first, offset);
      var cut := CutAt(|all|, first, offset);
      if cut <= n {
        assert all[..n][cut..] + [all[n]] == all[cut..];
      } else {
        assert all[..n][n..] == [] == all[cut..];
      }
    }
  }

  /** How many of `len` consecutive offsets from `first` are at most `offset`. */
  function CutAt(len: nat, first: nat, offset: nat): (cut: nat)
    ensures cut <= len
  {
    if offset < first then 0 else if offset - first + 1 < len then offset - first + 1 else len
  }

  lemma SinceIsFilter(s: Stream, offset: nat)
    requires s.Valid()
    ensures Filtered(s.Retained(), offset) == s.Since(offset)
  {
    var from := if offset < s.dropped then s.dropped else offset;
    AfterAt(s, s.dropped);
    FilteredRange(s.Retained(), s.dropped + 1, offset);
    AfterSplit(s, s.dropped, from);
  }

  lemma AfterSplit(s: Stream, from: nat, to: nat)
    requires from <= |s.log| && from <= to
    ensures CutAt(|s.After(from)|, from + 1, to) <= |s.After(from)|
    ensures s.After(from)[CutAt(|s.After(from)|, from + 1, to)..] == s.After(to)
  {
    AfterAt(s, from);
    AfterAt(s, to);
  }
}
