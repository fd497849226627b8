/** History in Redis: the two Lua scripts and the methods around them in
    crates/centrifugo-redis/src/lib.rs, for the two keys of one channel. Times are
    the Redis server's clock in milliseconds. */
module RedisHistory {
  import opened Common
  import opened Types
  import opened StreamModel
  import opened PushFormat
  import Memory

  /** A client info as protobuf has it: an absent info is an empty one. */
  datatype PbInfo = PbInfo(user: string, client: ClientId, connInfo: Bytes, chanInfo: Bytes)

  function OrEmpty(info: Option<Bytes>): Bytes { if info.Some? then info.value else [] }

  function NonEmpty(info: Bytes): Option<Bytes> { if info == [] then None else Some(info) }

  function ToPbInfo(i: ClientInfo): PbInfo { PbInfo(i.user, i.client, OrEmpty(i.connInfo), OrEmpty(i.chanInfo)) }

  function FromPbInfo(p: PbInfo): ClientInfo { ClientInfo(p.user, p.client, NonEmpty(p.connInfo), NonEmpty(p.chanInfo)) }

  /** What writing an entry as protobuf and reading it back makes of it. */
  function ThroughPb(e: Entry): Entry {
    Entry(e.data, if e.info.Some? then Some(FromPbInfo(ToPbInfo(e.info.value))) else None)
  }

  /** An info that is present but empty. */
  predicate HasEmptyInfo(e: Entry) {
    e.info.Some? && (e.info.value.connInfo == Some([]) || e.info.value.chanInfo == Some([]))
  }

  /** How publications are written as bodies and read back: any way that can be read, or
      that of the engine over a protobuf library that loses nothing. */
  datatype Codec = Codec(enc: Entry -> Bytes, dec: Bytes -> Option<Entry>) {
    ghost predicate Decodable() {
      forall e :: dec(enc(e)).Some?
    }

    ghost predicate Protobuf() {
      forall e :: dec(enc(e)) == Some(ThroughPb(e))
    }

    function Read(e: Entry): Entry
      requires Decodable()
    {
      dec(enc(e)).value
    }
  }

  /** With the engine's codec an entry survives exactly when it has no empty info. */
  lemma ReadBackExactly(codec: Codec, e: Entry)
    requires codec.Protobuf()
    ensures codec.Decodable() && (codec.Read(e) == e <==> !HasEmptyInfo(e))
  {
    assert forall x :: codec.dec(codec.enc(x)) == Some(ThroughPb(x));
  }

  /** The stream with every entry as a reader gets it. */
  ghost function AsRead(s: Stream, codec: Codec): Stream
    requires codec.Decodable()
  {
    s.(log := seq(|s.log|, i requires 0 <= i < |s.log| => codec.Read(s.log[i])))
  }

  /** The channel's history options and the engine's meta TTL, in seconds. */
  datatype Config = Config(size: nat, lifetime: nat, metaTtl: nat) {
    predicate Enabled() { size > 0 && lifetime > 0 }

    /** The meta hash never expires before the list. */
    predicate MetaOutlivesList() { metaTtl == 0 || lifetime <= metaTtl }
  }

  datatype Meta = Meta(offset: Option<nat>, epoch: Epoch)

  /** The list, newest first, with its expiry, and the meta hash with its. */
  datatype Keys = Keys(list: seq<Bytes>, listExpireAt: int, meta: Option<Meta>, metaExpireAt: Option<int>)

  const NO_KEYS := Keys([], 0, None, None)

  /** `TIME` in seconds, as a string. */
  function EpochAt(now: nat): Epoch { Decimal(now / 1000) }

  /** What Redis still has at `now`. */
  function Purge(k: Keys, now: nat): Keys {
    var list := if now > k.listExpireAt then [] else k.list;
    if k.metaExpireAt.Some? && now > k.metaExpireAt.value then Keys(list, k.listExpireAt, None, None)
    else k.(list := list)
  }

  function TouchedMeta(k: Keys, now: nat): Meta {
    if k.meta.Some? then k.meta.value else Meta(None, EpochAt(now))
  }

  function MetaExpiry(k: Keys, cfg: Config, now: nat): Option<int> {
    if cfg.metaTtl != 0 then Some(now + 1000 * cfg.metaTtl) else k.metaExpireAt
  }

  function TopOffset(meta: Meta): nat {
    match meta.offset
    case None => 0
    case Some(n) => n
  }

  /** The effect of the append script. */
  function AddScript(k0: Keys, cfg: Config, now: nat, body: Bytes): Keys {
    var k := Purge(k0, now);
    var meta := TouchedMeta(k, now);
    var offset := TopOffset(meta) + 1;
    var list := [OffsetFrame(offset, body)] + k.list;
    Keys(if |list| > cfg.size then list[..cfg.size] else list, now + 1000 * cfg.lifetime,
         Some(meta.(offset := Some(offset))), MetaExpiry(k, cfg, now))
  }

  /** The effect of the read script. */
  function ReadScript(k0: Keys, cfg: Config, now: nat): Keys {
    var k := Purge(k0, now);
    k.(meta := Some(TouchedMeta(k, now)), metaExpireAt := MetaExpiry(k, cfg, now))
  }

  /** One list element as a publication, unless its body does not decode. */
  function DecodeElement(raw: Bytes, dec: Bytes -> Option<Entry>): Option<Publication> {
    var x := ExtractPush(raw);
    match dec(x.body)
    case None => None
    case Some(e) => Some(Publication(e.data, e.info, x.offset, 0, 0))
  }

  function DecodeAll(list: seq<Bytes>, dec: Bytes -> Option<Entry>): seq<Publication> {
    if list == [] then []
    else
      var rest := DecodeAll(list[1..], dec);
      match DecodeElement(list[0], dec)
      case None => rest
      case Some(p) => [p] + rest
  }

  /** Stable insertion by offset, and the ascending sort it gives. */
  function Insert(p: Publication, sorted: seq<Publication>): seq<Publication> {
    if sorted == [] || p.offset <= sorted[0].offset then [p] + sorted
    else [sorted[0]] + Insert(p, sorted[1..])
  }

  function SortByOffset(pubs: seq<Publication>): seq<Publication> {
    if pubs == [] then [] else Insert(pubs[0], SortByOffset(pubs[1..]))
  }

  /** What a reader makes of the keys the read script left. */
  function ReadPubs(k: Keys, dec: Bytes -> Option<Entry>): seq<Publication> {
    SortByOffset(DecodeAll(k.list, dec))
  }

  function ReadTop(k: Keys): StreamPosition
    requires k.meta.Some?
  {
    StreamPosition(TopOffset(k.meta.value), k.meta.value.epoch)
  }

  /** The engine's view of one channel; each method runs one script. */
  class RedisChannel {
    var list: seq<Bytes>
    var listExpireAt: int
    var metaOffset: Option<nat>
    var metaEpoch: Option<Epoch>
    var metaExpireAt: Option<int>
    const cfg: Config
    const codec: Codec

    ghost predicate Valid() reads this {
      metaEpoch == None ==> metaOffset == None
    }

    ghost function State(): Keys
      requires Valid()
      reads this
    {
      Keys(list, listExpireAt, if metaEpoch.Some? then Some(Meta(metaOffset, metaEpoch.value)) else None, metaExpireAt)
    }

    constructor (cfg: Config, codec: Codec)
      ensures Valid() && State() == NO_KEYS && this.cfg == cfg && this.codec == codec
    {
      this.cfg, this.codec := cfg, codec;
      list, listExpireAt, metaOffset, metaEpoch, metaExpireAt := [], 0, None, None, None;
    }

    /** Redis removes a key whose time has passed before a script sees it. */
    method ExpireKeys(now: nat)
      requires Valid()
      modifies this
      ensures Valid() && State() == Purge(old(State()), now)
    {
      if now > listExpireAt { list := []; }
      if metaExpireAt.Some? && now > metaExpireAt.value {
        metaOffset, metaEpoch, metaExpireAt := None, None, None;
      }
    }

    /** `publish` on a channel with history: append, trim, restart the TTLs and
        publish the stored frame. */
    method AddHistory(now: nat, entry: Entry) returns (published: Bytes)
      requires Valid() && cfg.Enabled()
      modifies this
      ensures Valid() && State() == AddScript(old(State()), cfg, now, codec.enc(entry))
      ensures State().list != [] && published == State().list[0]
    {
      hide OffsetFrame, EpochAt, Purge;
      ExpireKeys(now);
      var epoch: Option<Epoch> := None;
      if metaEpoch.Some? || metaOffset.Some? {
        epoch := metaEpoch;
      }
      if epoch == None {
        epoch := Some(EpochAt(now));
        metaEpoch := epoch;
      }
      metaOffset := Some((if metaOffset.Some? then metaOffset.value else 0) + 1);
      if cfg.metaTtl != 0 {
        metaExpireAt := Some(now + 1000 * cfg.metaTtl);
      }
      var payload := OffsetFrame(metaOffset.value, codec.enc(entry));
      list := [payload] + list;
      if |list| > cfg.size { list := list[..cfg.size]; }
      listExpireAt := now + 1000 * cfg.lifetime;
      published := payload;
    }

    method ReadHistory(now: nat) returns (pubs: seq<Publication>, top: StreamPosition)
      requires Valid()
      modifies this
      ensures Valid() && State() == ReadScript(old(State()), cfg, now)
      ensures pubs == ReadPubs(State(), codec.dec) && top == ReadTop(State())
    {
      hide EpochAt, Purge, SortByOffset, DecodeAll;
      ExpireKeys(now);
      var offset := metaOffset;
      var epoch: Option<Epoch> := None;
      if metaEpoch.Some? || metaOffset.Some? {
        epoch := metaEpoch;
      }
      if epoch == None {
        epoch := Some(EpochAt(now));
        metaEpoch := epoch;
      }
      if cfg.metaTtl != 0 {
        metaExpireAt := Some(now + 1000 * cfg.metaTtl);
      }
      pubs := SortByOffset(DecodeAll(list, codec.dec));
      top := StreamPosition(if offset.Some? then offset.value else 0, epoch.value);
    }

    method HistorySince(offset: nat, epoch: Epoch, now: nat) returns (pubs: seq<Publication>, top: StreamPosition)
      requires Valid()
      modifies this
      ensures Valid() && State() == ReadScript(old(State()), cfg, now)
      ensures top == ReadTop(State())
      ensures pubs == if top == StreamPosition(offset, epoch) then [] else Memory.Filtered(ReadPubs(State(), codec.dec), offset)
    {
      var all;
      all, top := ReadHistory(now);
      if top.offset == offset && top.epoch == epoch { return [], top; }
      pubs := Memory.LaterThan(all, offset);
    }

    /** Deletes the list; the meta hash stays. */
    method RemoveHistory()
      requires Valid()
      modifies this
      ensures Valid() && State() == old(State()).(list := [])
    {
      list := [];
    }
  }

  /** The list holds the retained part of the stream's log, newest first. */
  ghost predicate Lists(list: seq<Bytes>, s: Stream, codec: Codec) {
    && s.Valid() && |list| == |s.log| - s.dropped
    && forall i :: 0 <= i < |list| ==> list[i] == OffsetFrame(|s.log| - i, codec.enc(s.log[|s.log| - 1 - i]))
  }

  /** The keys show exactly this stream; no stream means no meta hash. */
  ghost predicate Represents(k: Keys, s: Option<Stream>, codec: Codec) {
    match s
    case None => k.meta == None && k.list == []
    case Some(x) =>
      && k.meta.Some? && k.meta.value.epoch == x.epoch && TopOffset(k.meta.value) == |x.log|
      && Lists(k.list, x, codec)
  }

  /** The expiries in a reachable state: the list's comes first. */
  ghost predicate Timed(k: Keys, cfg: Config) {
    && (cfg.metaTtl == 0 ==> k.metaExpireAt == None)
    && (k.metaExpireAt.Some? && k.list != [] ==> k.listExpireAt <= k.metaExpireAt.value)
  }

  /** The stream as a script at `now` finds it. */
  ghost function Live(k: Keys, s: Option<Stream>, now: nat): Option<Stream> {
    if s == None || (k.metaExpireAt.Some? && now > k.metaExpireAt.value) then None
    else if now > k.listExpireAt then Some(DropAll(s.value))
    else s
  }

  lemma PurgeRefines(k: Keys, s: Option<Stream>, cfg: Config, codec: Codec, now: nat)
    requires Represents(k, s, codec) && Timed(k, cfg)
    ensures Represents(Purge(k, now), Live(k, s, now), codec) && Timed(Purge(k, now), cfg)
  {
  }

  lemma AppendRepresents(k: Keys, s: Stream, cfg: Config, codec: Codec, entry: Entry, list: seq<Bytes>, r: Keys)
    requires Represents(k, Some(s), codec) && cfg.Enabled()
    requires list == [OffsetFrame(|s.log| + 1, codec.enc(entry))] + k.list
    requires r.list == (if |list| > cfg.size then list[..cfg.size] else list)
    requires r.meta == Some(Meta(Some(|s.log| + 1), s.epoch))
    ensures Represents(r, Some(Append(s, entry, cfg.size)), codec)
  {
    hide OffsetFrame;
    var t := Append(s, entry, cfg.size);
    forall i | 0 <= i < |r.list| ensures r.list[i] == OffsetFrame(|t.log| - i, codec.enc(t.log[|t.log| - 1 - i])) {
      if i > 0 { assert r.list[i] == k.list[i - 1]; }
    }
  }

  /** The append script refines the abstract append. */
  lemma AddRefines(k: Keys, s: Option<Stream>, cfg: Config, codec: Codec, now: nat, entry: Entry)
    requires Represents(k, s, codec) && Timed(k, cfg) && cfg.Enabled() && cfg.MetaOutlivesList()
    ensures var k' := AddScript(k, cfg, now, codec.enc(entry));
            var before := Memory.OrFresh(Live(k, s, now), EpochAt(now));
            Represents(k', Some(Append(before, entry, cfg.size)), codec) && Timed(k', cfg)
  {
    PurgeRefines(k, s, cfg, codec, now);
    var p := Purge(k, now);
    var before := Memory.OrFresh(Live(k, s, now), EpochAt(now));
    var touched := p.(meta := Some(TouchedMeta(p, now)));
    assert Represents(touched, Some(before), codec);
    AppendRepresents(touched, before, cfg, codec, entry, [OffsetFrame(|before.log| + 1, codec.enc(entry))] + p.list,
                     AddScript(k, cfg, now, codec.enc(entry)));
  }

  /** The read script changes nothing but creates a missing stream. */
  lemma ReadRefines(k: Keys, s: Option<Stream>, cfg: Config, codec: Codec, now: nat)
    requires Represents(k, s, codec) && Timed(k, cfg) && cfg.MetaOutlivesList()
    ensures var k' := ReadScript(k, cfg, now);
            Represents(k', Some(Memory.OrFresh(Live(k, s, now), EpochAt(now))), codec)
    ensures k.listExpireAt <= now + 1000 * cfg.lifetime ==> Timed(ReadScript(k, cfg, now), cfg)
  {
    PurgeRefines(k, s, cfg, codec, now);
  }

  lemma {:induction false} InsertFirst(p: Publication, sorted: seq<Publication>)
    requires forall i :: 0 <= i < |sorted| ==> sorted[i].offset < p.offset
    ensures Insert(p, sorted) == sorted + [p]
  {
    if sorted != [] {
      InsertFirst(p, sorted[1..]);
      assert sorted == [sorted[0]] + sorted[1..];
    }
  }

  lemma ElementReadBack(s: Stream, n: nat, codec: Codec)
    requires codec.Decodable() && n < |s.log| && n + 1 < TWO_64
    ensures DecodeElement(OffsetFrame(n + 1, codec.enc(s.log[n])), codec.dec) == Some(At(AsRead(s, codec).log, n))
  {
    ExtractInvertsProducers(n + 1, codec.enc(s.log[n]));
    assert codec.dec(codec.enc(s.log[n])).Some?;
  }

  /** The stream before its newest entry was appended and nothing was trimmed. */
  function WithoutNewest(s: Stream): Stream
    requires s.log != []
  {
    s.(log := s.log[..|s.log| - 1])
  }

  lemma RetainedSnoc(s: Stream)
    requires s.dropped < |s.log|
    ensures s.Retained() == WithoutNewest(s).Retained() + [At(s.log, |s.log| - 1)]
    ensures forall p :: p in WithoutNewest(s).Retained() ==> p.offset < |s.log|
  {
    AfterAt(s, s.dropped);
    AfterAt(WithoutNewest(s), s.dropped);
    assert forall i :: 0 <= i < |s.log| - 1 ==> At(WithoutNewest(s).log, i) == At(s.log, i);
  }

  /** Reading the list back, sorted, gives the retained publications in order. */
  lemma {:induction false} ReadBack(list: seq<Bytes>, s: Stream, codec: Codec)
    requires codec.Decodable() && |s.log| < TWO_64 && Lists(list, s, codec)
    ensures SortByOffset(DecodeAll(list, codec.dec)) == AsRead(s, codec).Retained()
    decreases |list|
  {
    var r := AsRead(s, codec);
    if list == [] {
      AfterAt(r, r.dropped);
    } else {
      assert Lists(list[1..], WithoutNewest(s), codec);
      ReadBack(list[1..], WithoutNewest(s), codec);
      assert AsRead(WithoutNewest(s), codec) == WithoutNewest(r);
      ElementReadBack(s, |s.log| - 1, codec);
      RetainedSnoc(r);
      SortNewestFirst(At(r.log, |r.log| - 1), DecodeAll(list[1..], codec.dec), WithoutNewest(r).Retained());
    }
  }

  lemma SortNewestFirst(p: Publication, rest: seq<Publication>, sorted: seq<Publication>)
    requires SortByOffset(rest) == sorted && forall q :: q in sorted ==> q.offset < p.offset
    ensures SortByOffset([p] + rest) == sorted + [p]
  {
    assert ([p] + rest)[1..] == rest;
    InsertFirst(p, sorted);
  }

  /** A reader sees every retained publication, in order, and the position. */
  lemma ReadIsExact(k: Keys, s: Stream, codec: Codec)
    requires codec.Decodable() && Represents(k, Some(s), codec) && |s.log| < TWO_64
    ensures ReadPubs(k, codec.dec) == AsRead(s, codec).Retained() && ReadTop(k) == s.Position()
  {
    ReadBack(k.list, s, codec);
  }

  /** The entries a stream still has are read back as they were written. */
  ghost predicate ReadsAsWritten(s: Stream, codec: Codec)
    requires codec.Decodable()
  {
    forall i :: s.dropped <= i < |s.log| ==> codec.Read(s.log[i]) == s.log[i]
  }

  lemma RetainedAsWritten(s: Stream, codec: Codec)
    requires codec.Decodable() && s.Valid()
    ensures AsRead(s, codec).Retained() == s.Retained() <==> ReadsAsWritten(s, codec)
    ensures |AsRead(s, codec).Retained()| == |s.Retained()|
  {
    var r := AsRead(s, codec);
    AfterAt(s, s.dropped);
    AfterAt(r, s.dropped);
    if r.Retained() == s.Retained() {
      forall i | s.dropped <= i < |s.log| ensures codec.Read(s.log[i]) == s.log[i] {
        assert r.Retained()[i - s.dropped] == At(r.log, i) && s.Retained()[i - s.dropped] == At(s.log, i);
      }
    }
  }

  /** Both engines tell the same position of one stream, recover it in the same cases,
      and show the same publications exactly when these are read back as written. */
  lemma EnginesAgree(m: Memory.Ring, k: Keys, s: Stream, codec: Codec, offset: u64, epoch: Epoch)
    requires codec.Decodable() && |s.log| < TWO_64
    requires Memory.Represents(m, s) && Represents(k, Some(s), codec)
    ensures StreamPosition(m.offset, m.epoch) == ReadTop(k)
    ensures m.pubs == ReadPubs(k, codec.dec) <==> ReadsAsWritten(s, codec)
    ensures Memory.Filtered(m.pubs, offset) == s.Since(offset)
    ensures Memory.Filtered(ReadPubs(k, codec.dec), offset) == AsRead(s, codec).Since(offset)
    ensures Recovered(Memory.Filtered(m.pubs, offset), s.Position(), offset, epoch) ==
            Recovered(Memory.Filtered(ReadPubs(k, codec.dec), offset), ReadTop(k), offset, epoch)
  {
    ReadIsExact(k, s, codec);
    RetainedAsWritten(s, codec);
    Memory.SinceIsFilter(s, offset);
    Memory.SinceIsFilter(AsRead(s, codec), offset);
    RecoveryIsExact(s, offset, epoch);
    RecoveryIsExact(AsRead(s, codec), offset, epoch);
  }

  /** With the engine's codec: exactly when no publication still there has an empty info. */
  lemma EnginesAgreeOverProtobuf(m: Memory.Ring, k: Keys, s: Stream, codec: Codec)
    requires codec.Protobuf() && |s.log| < TWO_64
    requires Memory.Represents(m, s) && Represents(k, Some(s), codec)
    ensures m.pubs == ReadPubs(k, codec.dec) <==> forall i :: s.dropped <= i < |s.log| ==> !HasEmptyInfo(s.log[i])
  {
    ReadBackExactly(codec, Entry([], None));
    EnginesAgree(m, k, s, codec, 0, []);
    forall i | 0 <= i < |s.log| ensures codec.Read(s.log[i]) == s.log[i] <==> !HasEmptyInfo(s.log[i]) {
      ReadBackExactly(codec, s.log[i]);
    }
  }

  // ---- whole runs ----

  datatype Op = Add(now: nat, entry: Entry) | Read(now: nat) | Remove(now: nat)

  function Apply(k: Keys, cfg: Config, codec: Codec, op: Op): Keys {
    match op
    case Add(now, entry) => AddScript(k, cfg, now, codec.enc(entry))
    case Read(now) => ReadScript(k, cfg, now)
    case Remove(_) => k.(list := [])
  }

  function Run(cfg: Config, codec: Codec, ops: seq<Op>): Keys {
    if ops == [] then NO_KEYS
    else Apply(Run(cfg, codec, ops[..|ops| - 1]), cfg, codec, ops[|ops| - 1])
  }

  /** The server's clock does not run backwards. */
  ghost predicate ClockMonotone(ops: seq<Op>) {
    forall i, j :: 0 <= i <= j < |ops| ==> ops[i].now <= ops[j].now
  }

  function Clock(ops: seq<Op>): nat { if ops == [] then 0 else ops[|ops| - 1].now }

  /** What a reader can count on: consecutive offsets that end at the top. */
  ghost predicate Contiguous(pubs: seq<Publication>, top: StreamPosition) {
    && |pubs| <= top.offset
    && forall i :: 0 <= i < |pubs| ==> pubs[i].offset == top.offset - |pubs| + 1 + i
  }

  ghost predicate AlwaysContiguous(cfg: Config, codec: Codec) {
    forall ops: seq<Op>, now: nat :: ClockMonotone(ops) && Clock(ops) <= now && |ops| < TWO_64 ==>
      var k := ReadScript(Run(cfg, codec, ops), cfg, now);
      Contiguous(ReadPubs(k, codec.dec), ReadTop(k))
  }

  /** One operation takes represented keys to represented keys. */
  lemma ApplyRefines(k: Keys, s: Option<Stream>, cfg: Config, codec: Codec, op: Op) returns (s': Option<Stream>)
    requires cfg.Enabled() && cfg.MetaOutlivesList() && Represents(k, s, codec) && Timed(k, cfg)
    requires k.listExpireAt <= op.now + 1000 * cfg.lifetime
    ensures var k' := Apply(k, cfg, codec, op);
            Represents(k', s', codec) && Timed(k', cfg) && k'.listExpireAt <= op.now + 1000 * cfg.lifetime
    ensures s'.Some? ==> |s'.value.log| <= (if s.Some? then |s.value.log| else 0) + 1
  {
    match op
    case Add(now, entry) =>
      hide Represents, Timed;
      AddRefines(k, s, cfg, codec, now, entry);
      s' := Some(Append(Memory.OrFresh(Live(k, s, now), EpochAt(now)), entry, cfg.size));
    case Read(now) =>
      hide Represents, Timed;
      ReadRefines(k, s, cfg, codec, now);
      s' := Some(Memory.OrFresh(Live(k, s, now), EpochAt(now)));
    case Remove(_) =>
      s' := if s.Some? then Some(DropAll(s.value)) else None;
  }

  /** In every run the keys represent some stream. */
  lemma {:induction false} RunRepresents(cfg: Config, codec: Codec, ops: seq<Op>) returns (s: Option<Stream>)
    requires cfg.Enabled() && cfg.MetaOutlivesList() && ClockMonotone(ops)
    ensures var k := Run(cfg, codec, ops);
            Represents(k, s, codec) && Timed(k, cfg) && k.listExpireAt <= Clock(ops) + 1000 * cfg.lifetime
    ensures s.Some? ==> |s.value.log| <= |ops|
  {
    if ops == [] { return None; }
    hide Represents, Timed, Apply;
    var before := ops[..|ops| - 1];
    s := RunRepresents(cfg, codec, before);
    assert Clock(before) <= Clock(ops);
    s := ApplyRefines(Run(cfg, codec, before), s, cfg, codec, ops[|ops| - 1]);
  }

  lemma RetainedIsContiguous(s: Stream)
    requires s.Valid()
    ensures Contiguous(s.Retained(), s.Position())
  {
    AfterAt(s, s.dropped);
  }

  /** If the meta hash can expire first, reading after it did finds a publication
      above a top that restarted at 0. */
  lemma StaleListAfterMetaExpiry(cfg: Config, codec: Codec, entry: Entry)
    requires cfg.Enabled() && !cfg.MetaOutlivesList() && codec.Decodable()
    ensures var now := 1000 * cfg.metaTtl + 1;
            var k := ReadScript(Run(cfg, codec, [Add(0, entry)]), cfg, now);
            ReadTop(k).offset == 0 && ReadPubs(k, codec.dec) == [At([codec.Read(entry)], 0)]
  {
    var ops := [Add(0, entry)];
    assert ops[..0] == [];
    assert Run(cfg, codec, []) == NO_KEYS;
    var k1 := Run(cfg, codec, ops);
    var frame := OffsetFrame(1, codec.enc(entry));
    assert [frame] + [] == [frame];
    assert k1 == Keys([frame], 1000 * cfg.lifetime, Some(Meta(Some(1), EpochAt(0))), Some(1000 * cfg.metaTtl));
    ExtractInvertsProducers(1, codec.enc(entry));
    var p := At([codec.Read(entry)], 0);
    assert codec.dec(codec.enc(entry)).Some?;
    assert DecodeElement(frame, codec.dec) == Some(p);
    assert [frame][1..] == [];
    assert DecodeAll([frame], codec.dec) == [p] + DecodeAll([], codec.dec);
    assert [p] + [] == [p] && [p][1..] == [];
    assert SortByOffset([p]) == Insert(p, SortByOffset([]));
  }

  /** Readers always see a contiguous run ending at the top exactly when the meta
      TTL is 0 or at least the history lifetime. */
  lemma ContiguousExactly(cfg: Config, codec: Codec)
    requires cfg.Enabled() && codec.Decodable()
    ensures AlwaysContiguous(cfg, codec) <==> cfg.MetaOutlivesList()
  {
    if cfg.MetaOutlivesList() {
      forall ops: seq<Op>, now: nat | ClockMonotone(ops) && Clock(ops) <= now && |ops| < TWO_64
        ensures var k := ReadScript(Run(cfg, codec, ops), cfg, now); Contiguous(ReadPubs(k, codec.dec), ReadTop(k))
      {
        var s := RunRepresents(cfg, codec, ops);
        var k := Run(cfg, codec, ops);
        ReadRefines(k, s, cfg, codec, now);
        var seen := Memory.OrFresh(Live(k, s, now), EpochAt(now));
        ReadIsExact(ReadScript(k, cfg, now), seen, codec);
        RetainedIsContiguous(AsRead(seen, codec));
      }
    } else {
      var entry := Entry([], None);
      StaleListAfterMetaExpiry(cfg, codec, entry);
      var ops := [Add(0, entry)];
      assert ClockMonotone(ops) && Clock(ops) <= 1000 * cfg.metaTtl + 1;
    }
  }

  // ---- how long the keys last ----

  function ReadAt(k: Keys, cfg: Config, times: seq<nat>): Keys {
    if times == [] then k else ReadScript(ReadAt(k, cfg, times[..|times| - 1]), cfg, times[|times| - 1])
  }

  /** What an append leaves in the list is there for every read until the lifetime is
      over, and for none after; reading does not prolong it. */
  lemma {:induction false} ListLastsItsLifetime(k: Keys, cfg: Config, added: nat, body: Bytes, times: seq<nat>)
    ensures var r := AddScript(k, cfg, added, body);
            ReadAt(r, cfg, times).list == if AllBy(times, added + 1000 * cfg.lifetime) then r.list else []
    ensures ReadAt(AddScript(k, cfg, added, body), cfg, times).listExpireAt == added + 1000 * cfg.lifetime
  {
    hide OffsetFrame, EpochAt, AllBy, ReadScript, Purge, TouchedMeta;
    if times == [] {
      AllByNone(added + 1000 * cfg.lifetime);
    } else {
      var before, last := times[..|times| - 1], times[|times| - 1];
      ListLastsItsLifetime(k, cfg, added, body, before);
      assert times == before + [last];
      AllBySnoc(before, last, added + 1000 * cfg.lifetime);
      ListAtRead(ReadAt(AddScript(k, cfg, added, body), cfg, before), cfg, last);
    }
  }

  ghost predicate AllBy(times: seq<nat>, end: nat) { forall i :: 0 <= i < |times| ==> times[i] <= end }

  lemma AllByNone(end: nat)
    ensures AllBy([], end)
  {
  }

  lemma AllBySnoc(times: seq<nat>, last: nat, end: nat)
    ensures AllBy(times + [last], end) <==> AllBy(times, end) && last <= end
  {
    assert forall i :: 0 <= i < |times| ==> (times + [last])[i] == times[i];
    assert (times + [last])[|times|] == last;
  }

  lemma ListAtRead(k: Keys, cfg: Config, now: nat)
    ensures ReadScript(k, cfg, now).list == (if now > k.listExpireAt then [] else k.list)
    ensures ReadScript(k, cfg, now).listExpireAt == k.listExpireAt
  {
  }

  /** No two consecutive times are further apart than the meta TTL. */
  ghost predicate InTime(from: nat, times: seq<nat>, metaTtl: nat) {
    times != [] ==>
      var before := times[..|times| - 1];
      InTime(from, before, metaTtl) && times[|times| - 1] <= LastOf(from, before) + 1000 * metaTtl
  }

  ghost function LastOf(from: nat, times: seq<nat>): nat { if times == [] then from else times[|times| - 1] }

  /** Each read starts the meta TTL again: the position of an append is still told
      exactly when no two consecutive scripts were further apart than the TTL. */
  lemma {:induction false} PositionLastsWhileRead(k: Keys, cfg: Config, added: nat, body: Bytes, times: seq<nat>)
    requires cfg.metaTtl > 0
    ensures var r := AddScript(k, cfg, added, body);
            ReadAt(r, cfg, times).meta == r.meta <==> InTime(added, times, cfg.metaTtl)
    ensures var r := ReadAt(AddScript(k, cfg, added, body), cfg, times);
            && r.metaExpireAt == Some(LastOf(added, times) + 1000 * cfg.metaTtl)
            && r.meta.Some? && (!InTime(added, times, cfg.metaTtl) ==> r.meta.value.offset == None)
  {
    if times != [] {
      hide OffsetFrame, EpochAt;
      PositionLastsWhileRead(k, cfg, added, body, times[..|times| - 1]);
    }
  }

  /** Without a meta TTL the position is told for ever. */
  lemma {:induction false} PositionLastsForEver(k: Keys, cfg: Config, added: nat, body: Bytes, times: seq<nat>)
    requires cfg.metaTtl == 0 && Timed(k, cfg)
    ensures var r := AddScript(k, cfg, added, body);
            ReadAt(r, cfg, times).meta == r.meta && ReadAt(r, cfg, times).metaExpireAt == None
  {
    if times != [] {
      hide OffsetFrame, EpochAt;
      PositionLastsForEver(k, cfg, added, body, times[..|times| - 1]);
    }
  }

  // ---- epochs ----

  /** The epochs issued in a run, in order; each is the server's time in seconds. */
  function Epochs(cfg: Config, codec: Codec, ops: seq<Op>): seq<nat> {
    if ops == [] then []
    else
      var before := ops[..|ops| - 1];
      var op := ops[|ops| - 1];
      Epochs(cfg, codec, before) +
      if op.Remove? || Purge(Run(cfg, codec, before), op.now).meta.Some? then [] else [op.now / 1000]
  }

  ghost predicate StrictlyIncreasing(xs: seq<nat>) {
    forall i, j :: 0 <= i < j < |xs| ==> xs[i] < xs[j]
  }

  /** The keys hold the newest epoch issued, if any, and keep it at least a TTL. */
  ghost predicate HoldsNewest(k: Keys, es: seq<nat>, cfg: Config, clock: nat) {
    && StrictlyIncreasing(es)
    && (k.meta.Some? <==> es != [])
    && (es == [] ==> k.metaExpireAt == None)
    && (es != [] ==>
         && k.meta.value.epoch == Decimal(es[|es| - 1])
         && es[|es| - 1] <= clock / 1000
         && (k.metaExpireAt.Some? <==> cfg.metaTtl > 0)
         && (cfg.metaTtl > 0 ==> k.metaExpireAt.value >= 1000 * (es[|es| - 1] + cfg.metaTtl)))
  }

  lemma NextEpoch(k: Keys, es: seq<nat>, cfg: Config, codec: Codec, clock: nat, op: Op)
    requires HoldsNewest(k, es, cfg, clock) && clock <= op.now && (k.meta == None ==> es == [])
    ensures var next := if op.Remove? || Purge(k, op.now).meta.Some? then [] else [op.now / 1000];
            HoldsNewest(Apply(k, cfg, codec, op), es + next, cfg, op.now)
  {
    hide Decimal, OffsetFrame, StrictlyIncreasing;
    assert es + [] == es;
    if !op.Remove? && Purge(k, op.now).meta == None {
      assert es != [] ==> es[|es| - 1] < op.now / 1000;
      IncreasingSnoc(es, op.now / 1000);
    }
  }

  lemma IncreasingSnoc(es: seq<nat>, x: nat)
    requires StrictlyIncreasing(es) && (es != [] ==> es[|es| - 1] < x)
    ensures StrictlyIncreasing(es + [x])
  {
  }

  /** No epoch is ever reused, whatever the meta TTL: a new one is only issued after
      the old meta hash lived at least a second, or never. */
  lemma {:induction false} EpochsNeverRepeat(cfg: Config, codec: Codec, ops: seq<Op>)
    requires ClockMonotone(ops)
    ensures HoldsNewest(Run(cfg, codec, ops), Epochs(cfg, codec, ops), cfg, Clock(ops))
    ensures StrictlyIncreasing(Epochs(cfg, codec, ops))
    ensures var es := Epochs(cfg, codec, ops); forall i, j :: 0 <= i < j < |es| ==> Decimal(es[i]) != Decimal(es[j])
  {
    if ops != [] {
      hide Purge, Apply, Decimal;
      var before := ops[..|ops| - 1];
      EpochsNeverRepeat(cfg, codec, before);
      assert Clock(before) <= Clock(ops);
      NextEpoch(Run(cfg, codec, before), Epochs(cfg, codec, before), cfg, codec, Clock(before), ops[|ops| - 1]);
    }
    var es := Epochs(cfg, codec, ops);
    forall i, j | 0 <= i < j < |es| ensures Decimal(es[i]) != Decimal(es[j]) {
      EpochStringsDiffer(es[i], es[j]);
    }
  }

  /** Distinct times are distinct epochs. */
  lemma EpochStringsDiffer(a: nat, b: nat)
    ensures Decimal(a) == Decimal(b) <==> a == b
  {
    assert DigitsValue(Decimal(a)) == a && DigitsValue(Decimal(b)) == b;
  }
}
