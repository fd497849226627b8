/** One channel's history stream, seen from outside any engine, and what recovering
    from it means (crates/centrifugo-core/src/client.rs, `on_subscribe`). */
module StreamModel {
  import opened Common
  import opened Types
  import opened SeqGen

  /** What one publish put into the stream. */
  datatype Entry = Entry(data: Bytes, info: Option<ClientInfo>)

  /** `log` is everything ever appended in this epoch, so entry `i` has offset
      `i + 1`; the first `dropped` entries are no longer available. */
  datatype Stream = Stream(epoch: Epoch, log: seq<Entry>, dropped: nat) {
    predicate Valid() { dropped <= |log| }

    function Position(): StreamPosition { StreamPosition(|log|, epoch) }

    /** The publications at offsets `from + 1` to the top, oldest first. */
    function After(from: nat): seq<Publication> {
      if from >= |log| then []
      else seq(|log| - from, i requires 0 <= i < |log| - from => At(log, from + i))
    }

    function Retained(): seq<Publication> { After(dropped) }

    /** The answer to a recovery request: what is left of everything after `offset`. */
    function Since(offset: nat): seq<Publication> {
      After(if offset < dropped then dropped else offset)
    }
  }

  function Fresh(epoch: Epoch): Stream { Stream(epoch, [], 0) }

  function At(log: seq<Entry>, i: nat): Publication
    requires i < |log|
  {
    Publication(log[i].data, log[i].info, i + 1, 0, 0)
  }

  lemma AfterAt(s: Stream, from: nat)
    ensures |s.After(from)| == if from < |s.log| then |s.log| - from else 0
    ensures forall i :: 0 <= i < |s.After(from)| ==> s.After(from)[i] == At(s.log, from + i)
  {
  }

  /** Appends an entry and trims the stream to its `size` newest entries. */
  function Append(s: Stream, entry: Entry, size: nat): Stream {
    var log := s.log + [entry];
    var beyond := if |log| > size then |log| - size else 0;
    Stream(s.epoch, log, if beyond > s.dropped then beyond else s.dropped)
  }

  /** Appending moves the position by one and keeps the newest `size` publications, the
      new one last. */
  lemma AppendExactly(s: Stream, entry: Entry, size: nat)
    requires s.Valid()
    ensures var t := Append(s, entry, size);
            && t.Valid() && t.Position() == StreamPosition(|s.log| + 1, s.epoch)
            && |t.Retained()| == (if |s.Retained()| + 1 < size then |s.Retained()| + 1 else size)
            && (size > 0 ==> t.Retained()[|t.Retained()| - 1] == Publication(entry.data, entry.info, |s.log| + 1, 0, 0))
            && forall i :: 0 <= i < |t.Retained()| - 1 ==> t.Retained()[i] == s.Retained()[|s.Retained()| + 1 - |t.Retained()| + i]
  {
    var t := Append(s, entry, size);
    AfterAt(s, s.dropped);
    AfterAt(t, t.dropped);
    assert t.dropped - s.dropped == |s.Retained()| + 1 - |t.Retained()|;
  }

  /** Every buffered publication is gone; the position stays. */
  function DropAll(s: Stream): Stream { s.(dropped := |s.log|) }

  /** The test by which `on_subscribe` reports a successful recovery. The increment
      wraps as in a release build. */
  predicate Recovered(pubs: seq<Publication>, top: StreamPosition, offset: u64, epoch: Epoch) {
    var next := (offset + 1) % TWO_64;
    if pubs != [] then pubs[0].offset == next && top.epoch == epoch
    else top.offset == offset && top.epoch == epoch
  }

  /** Recovery is reported exactly when the epoch is the stream's, the offset is not
      beyond its top and nothing after the offset has been dropped; what is returned
      is then everything appended after the offset. */
  lemma RecoveryIsExact(s: Stream, offset: u64, epoch: Epoch)
    requires s.Valid() && |s.log| < TWO_64
    ensures Recovered(s.Since(offset), s.Position(), offset, epoch) <==>
            epoch == s.epoch && offset <= |s.log| && s.dropped <= offset
    ensures Recovered(s.Since(offset), s.Position(), offset, epoch) ==> s.Since(offset) == s.After(offset)
  {
    var from := if offset < s.dropped then s.dropped else offset;
    if from < |s.log| {
      var pubs := s.Since(offset);
      assert |pubs| == |s.log| - from && pubs[0] == At(s.log, from + 0);
    } else {
      assert s.Since(offset) == [];
    }
  }

  datatype SubscribeResult = SubscribeResult(recoverable: bool, recovered: bool, epoch: Epoch,
                                             position: WirePosition, publications: seq<Publication>)

  const NO_POSITION: WirePosition := WirePosition(0, 0, 0)
  const NOT_RECOVERABLE: SubscribeResult := SubscribeResult(false, false, [], NO_POSITION, [])

  function ToSeqGen(p: Publication): Publication {
    var (s, g) := Unpack(p.offset % TWO_64);
    p.(sq := s, gen := g, offset := 0)
  }

  function FromSeqGen(p: Publication): Publication {
    p.(offset := p.gen * TWO_32 + p.sq, sq := 0, gen := 0)
  }

  lemma SeqGenRoundTrip(p: Publication)
    requires p.offset < TWO_64 && p.sq == 0 && p.gen == 0
    ensures FromSeqGen(ToSeqGen(p)) == p
  {
    assert p.offset % TWO_64 == p.offset;
  }

  /** Publications as an engine answers them, within the range of a `u64`. */
  ghost predicate InRange(pubs: seq<Publication>) {
    forall p :: p in pubs ==> p.offset < TWO_64 && p.sq == 0 && p.gen == 0
  }

  function Reversed<T>(s: seq<T>): (r: seq<T>)
    ensures |r| == |s| && forall i :: 0 <= i < |s| ==> r[i] == s[|s| - 1 - i]
  {
    if s == [] then [] else Reversed(s[1..]) + [s[0]]
  }

  /** The publications of a result in the order they were published, with offsets. */
  function InOrder(publications: seq<Publication>, useSeqGen: bool): seq<Publication> {
    if useSeqGen then
      var r := Reversed(publications);
      seq(|r|, i requires 0 <= i < |r| => FromSeqGen(r[i]))
    else publications
  }

  /** Rewrites every publication for the seq/gen mode, newest first. */
  method ConvertToSeqGen(answer: seq<Publication>) returns (pubs: seq<Publication>)
    ensures InRange(answer) ==> InOrder(pubs, true) == answer
    ensures forall p :: p in pubs ==> p.offset == 0
  {
    pubs := answer;
    var i := 0;
    while i < |pubs|
      invariant i <= |pubs| == |answer|
      invariant forall j :: 0 <= j < i ==> pubs[j] == ToSeqGen(answer[j])
      invariant forall j :: i <= j < |pubs| ==> pubs[j] == answer[j]
    {
      pubs := pubs[i := ToSeqGen(pubs[i])];
      i := i + 1;
    }
    ghost var converted := pubs;
    pubs := Reversed(pubs);
    if InRange(answer) { BackInOrder(answer, converted, pubs); }
  }

  lemma BackInOrder(answer: seq<Publication>, converted: seq<Publication>, pubs: seq<Publication>)
    requires InRange(answer) && |converted| == |answer| && pubs == Reversed(converted)
    requires forall j :: 0 <= j < |answer| ==> converted[j] == ToSeqGen(answer[j])
    ensures InOrder(pubs, true) == answer
  {
    var back, r := InOrder(pubs, true), Reversed(pubs);
    forall j | 0 <= j < |answer| ensures back[j] == answer[j] {
      assert r[j] == pubs[|answer| - 1 - j] == converted[j];
      assert answer[j] in answer;
      SeqGenRoundTrip(answer[j]);
    }
    assert back == answer;
  }

  /** The recovery half of a SUBSCRIBE reply, from what the engine answered. The
      publications, put back in order, are the engine's. */
  method RecoverResult(answer: seq<Publication>, top: StreamPosition, cmdOffset: u64, epoch: Epoch, useSeqGen: bool)
    returns (result: SubscribeResult)
    ensures result.recoverable && result.epoch == top.epoch
    ensures result.recovered == Recovered(answer, top, cmdOffset, epoch)
    ensures top.offset < TWO_64 ==>
              RequestedOffset(result.position) == (if useSeqGen then top.offset - top.offset / TWO_32 else top.offset)
    ensures InRange(answer) ==> InOrder(result.publications, useSeqGen) == answer
    ensures useSeqGen ==> forall p :: p in result.publications ==> p.offset == 0
  {
    var pubs := answer;
    EchoNeverSkips(top.offset % TWO_64, useSeqGen);
    if useSeqGen {
      pubs := ConvertToSeqGen(pubs);
    }
    result := SubscribeResult(true, Recovered(answer, top, cmdOffset, epoch), top.epoch,
                              EncodePosition(top.offset % TWO_64, useSeqGen), pubs);
  }

  /** A client that resumes from the position it was last given (`v`, echoed) and is
      told it recovered gets at least everything after that position, and exactly
      that while positions are below 2^32. */
  lemma ResumingMissesNothing(s: Stream, v: u64, useSeqGen: bool)
    requires s.Valid() && v <= |s.log| < TWO_64
    requires Recovered(s.Since(RequestedOffset(EncodePosition(v, useSeqGen))), s.Position(),
                       RequestedOffset(EncodePosition(v, useSeqGen)), s.epoch)
    ensures var answer := s.Since(RequestedOffset(EncodePosition(v, useSeqGen)));
            && |answer| >= |s.After(v)|
            && answer[|answer| - |s.After(v)|..] == s.After(v)
            && (!useSeqGen || v < TWO_32 ==> answer == s.After(v))
  {
    EchoNeverSkips(v, useSeqGen);
    RecoveryIsExact(s, RequestedOffset(EncodePosition(v, useSeqGen)), s.epoch);
  }
}
