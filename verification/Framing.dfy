/** Length-prefixed framing of protobuf messages: the loops of `encode_commands`,
    `decode_commands`, `encode_replies` and `decode_replies` in
    crates/centrifugo-protocol/src/codec.rs. A message body is an opaque byte string
    read by `dec` and written by `enc`. */
module Framing {
  import opened Common
  import Uvarint

  datatype CodecError = Truncated | BadBody

  /** A body short enough for its framed length to be a `u64`. */
  predicate Fits(body: Bytes) {
    |body| + Uvarint.MAX_LEN < TWO_64
  }

  function Segment(body: Bytes): Bytes {
    Uvarint.Encode(|body|) + body
  }

  function Frame(bodies: seq<Bytes>): Bytes {
    Concat(seq(|bodies|, i requires 0 <= i < |bodies| => Segment(bodies[i])))
  }

  function Prepend<T>(x: T, r: Result<seq<T>, CodecError>): Result<seq<T>, CodecError> {
    match r
    case Ok(xs) => Ok([x] + xs)
    case Err(e) => Err(e)
  }

  function Unframe<T>(frame: Bytes, dec: Bytes -> Option<T>): Result<seq<T>, CodecError> {
    if frame == [] then Ok([])
    else match Uvarint.Decode(frame)
      case None => Err(Truncated)
      case Some((len, n)) =>
        if n + len >= TWO_64 || n + len > |frame| then Err(Truncated)
        else match dec(frame[n..n + len])
          case None => Err(BadBody)
          case Some(x) => Prepend(x, Unframe(frame[n + len..], dec))
  }

  function Bodies<T>(items: seq<T>, enc: T -> Bytes): seq<Bytes> {
    seq(|items|, i requires 0 <= i < |items| => enc(items[i]))
  }

  lemma BodiesSplit<T>(items: seq<T>, enc: T -> Bytes)
    ensures items == [] ==> Frame(Bodies(items, enc)) == []
    ensures items != [] ==> Bodies(items, enc) == [enc(items[0])] + Bodies(items[1..], enc)
  {
  }

  method EncodeFrames<T>(items: seq<T>, enc: T -> Bytes) returns (buf: Bytes)
    requires forall x :: x in items ==> Fits(enc(x))
    ensures buf == Frame(Bodies(items, enc))
  {
    ghost var bodies := Bodies(items, enc);
    buf := [];
    var k := 0;
    while k < |items|
      invariant k <= |items|
      invariant buf == Frame(bodies[..k])
    {
      var bytes := enc(items[k]);
      FrameSnoc(bodies[..k], bytes);
      assert bodies[..k + 1] == bodies[..k] + [bytes];
      buf := Uvarint.EncodeUvarint(|bytes|, buf);
      buf := buf + bytes;
      k := k + 1;
    }
    assert bodies[..k] == bodies;
  }

  /** Framing is a homomorphism. */
  lemma FrameAppend(a: seq<Bytes>, b: seq<Bytes>)
    ensures Frame(a + b) == Frame(a) + Frame(b)
  {
    var sa := seq(|a|, i requires 0 <= i < |a| => Segment(a[i]));
    var sb := seq(|b|, i requires 0 <= i < |b| => Segment(b[i]));
    var ab := a + b;
    assert seq(|ab|, i requires 0 <= i < |ab| => Segment(ab[i])) == sa + sb;
    ConcatAppend(sa, sb);
  }

  lemma FrameOne(body: Bytes)
    ensures Frame([body]) == Segment(body)
  {
    var segs := seq(1, i requires 0 <= i < 1 => Segment([body][i]));
    assert segs == [Segment(body)];
    assert segs[1..] == [];
    assert Concat(segs) == Segment(body) + Concat(segs[1..]);
  }

  lemma FrameSnoc(bodies: seq<Bytes>, body: Bytes)
    ensures Frame(bodies + [body]) == Frame(bodies) + Uvarint.Encode(|body|) + body
  {
    FrameAppend(bodies, [body]);
    FrameOne(body);
  }

  function AppendTo<T>(xs: seq<T>, r: Result<seq<T>, CodecError>): Result<seq<T>, CodecError> {
    match r
    case Ok(ys) => Ok(xs + ys)
    case Err(e) => Err(e)
  }

  lemma AppendPush<T>(xs: seq<T>, x: T, r: Result<seq<T>, CodecError>)
    ensures AppendTo(xs, Prepend(x, r)) == AppendTo(xs + [x], r)
  {
    if r.Ok? { assert xs + ([x] + r.value) == (xs + [x]) + r.value; }
  }

  /** One transport frame to its messages. The loop stops with every byte consumed
      or with an error. */
  method DecodeFrames<T>(frame: Bytes, dec: Bytes -> Option<T>) returns (r: Result<seq<T>, CodecError>)
    ensures r == Unframe(frame, dec)
  {
    var out: seq<T> := [];
    var rest := frame;
    AppendToNothing(Unframe(rest, dec));
    while rest != []
      invariant Unframe(frame, dec) == AppendTo(out, Unframe(rest, dec))
      decreases |rest|
    {
      var prefix := Uvarint.DecodeUvarint(rest);
      if prefix == None { return Err(Truncated); }
      var (len, start) := prefix.value;
      if start + len >= TWO_64 { return Err(Truncated); }
      var end := start + len;
      if end > |rest| { return Err(Truncated); }
      var msg := dec(rest[start..end]);
      if msg == None { return Err(BadBody); }
      AppendPush(out, msg.value, Unframe(rest[end..], dec));
      out := out + [msg.value];
      rest := rest[end..];
    }
    assert out + [] == out;
    return Ok(out);
  }

  lemma UnframeSegment<T>(body: Bytes, rest: Bytes, dec: Bytes -> Option<T>)
    requires Fits(body)
    ensures Unframe(Segment(body) + rest, dec) ==
            match dec(body) case None => Err(BadBody) case Some(x) => Prepend(x, Unframe(rest, dec))
  {
    var frame := Segment(body) + rest;
    Uvarint.DecodeEncode(|body|, body + rest);
    assert frame == Uvarint.Encode(|body|) + (body + rest);
    var n := |Uvarint.Encode(|body|)|;
    assert frame[n..n + |body|] == body && frame[n + |body|..] == rest;
  }

  /** Unframing undoes framing, for any messages a body decoder can read back. */
  lemma {:induction false} UnframeFrame<T>(items: seq<T>, enc: T -> Bytes, dec: Bytes -> Option<T>)
    requires forall x :: x in items ==> Fits(enc(x)) && dec(enc(x)) == Some(x)
    ensures Unframe(Frame(Bodies(items, enc)), dec) == Ok(items)
  {
    hide Frame, Bodies;
    BodiesSplit(items, enc);
    if items != [] {
      hide Segment, Unframe;
      var tail := Bodies(items[1..], enc);
      UnframeFrame(items[1..], enc, dec);
      FrameAppend([enc(items[0])], tail);
      FrameOne(enc(items[0]));
      UnframeSegment(enc(items[0]), Frame(tail), dec);
      assert [items[0]] + items[1..] == items;
    }
  }

  /** `chunk` is one length prefix and one body, which reads as `x`. */
  predicate IsSegment<T(==)>(chunk: Bytes, x: T, dec: Bytes -> Option<T>) {
    && Uvarint.Decode(chunk).Some?
    && var (len, n) := Uvarint.Decode(chunk).value;
    && n + len == |chunk|
    && dec(chunk[n..]) == Some(x)
  }

  function SegmentEnd(f: Bytes): (end: nat)
    requires Uvarint.Decode(f).Some?
    ensures end > 0
  {
    Uvarint.Decode(f).value.0 + Uvarint.Decode(f).value.1
  }

  function SegmentBody(f: Bytes): Bytes
    requires Uvarint.Decode(f).Some? && SegmentEnd(f) <= |f|
  {
    f[Uvarint.Decode(f).value.1..SegmentEnd(f)]
  }

  lemma SegmentOfConcat(f: Bytes, g: Bytes)
    requires Uvarint.Decode(f).Some? && SegmentEnd(f) <= |f|
    ensures Uvarint.Decode(f + g) == Uvarint.Decode(f)
    ensures SegmentBody(f + g) == SegmentBody(f) && (f + g)[SegmentEnd(f)..] == f[SegmentEnd(f)..] + g
  {
    Uvarint.DecodePrefix(f, g);
  }

  lemma FirstSegment<T>(f: Bytes, dec: Bytes -> Option<T>)
    requires Uvarint.Decode(f).Some? && SegmentEnd(f) <= |f| && dec(SegmentBody(f)).Some?
    ensures IsSegment(f[..SegmentEnd(f)], dec(SegmentBody(f)).value, dec)
  {
    Uvarint.DecodeCut(f, SegmentEnd(f));
    assert f[..SegmentEnd(f)][Uvarint.Decode(f).value.1..] == SegmentBody(f);
  }

  lemma FirstMessage<T>(f: Bytes, g: Bytes, dec: Bytes -> Option<T>) returns (x: T, end: nat)
    requires f != [] && Unframe(f, dec).Ok?
    ensures 0 < end <= |f| && IsSegment(f[..end], x, dec)
    ensures Unframe(f, dec) == Prepend(x, Unframe(f[end..], dec))
    ensures Unframe(f + g, dec) == Prepend(x, Unframe(f[end..] + g, dec))
  {
    hide Uvarint.Decode, IsSegment;
    end := SegmentEnd(f);
    x := dec(SegmentBody(f)).value;
    FirstSegment(f, dec);
    SegmentOfConcat(f, g);
  }

  lemma PrependAppend<T>(x: T, xs: seq<T>, r: Result<seq<T>, CodecError>)
    ensures AppendTo([x] + xs, r) == Prepend(x, AppendTo(xs, r))
  {
    if r.Ok? { assert ([x] + xs) + r.value == [x] + (xs + r.value); }
  }

  lemma AppendToNothing<T>(r: Result<seq<T>, CodecError>)
    ensures AppendTo([], r) == r
  {
    if r.Ok? { assert [] + r.value == r.value; }
  }

  /** Decodable frames may be glued together: what follows a decoded frame is
      decoded as if it stood alone. */
  lemma {:induction false} UnframeConcat<T>(f: Bytes, g: Bytes, dec: Bytes -> Option<T>)
    requires Unframe(f, dec).Ok?
    ensures Unframe(f + g, dec) == AppendTo(Unframe(f, dec).value, Unframe(g, dec))
    decreases |f|
  {
    if f == [] {
      assert f + g == g;
      AppendToNothing(Unframe(g, dec));
    } else {
      var x, end := FirstMessage(f, g, dec);
      UnframeConcat(f[end..], g, dec);
      PrependAppend(x, Unframe(f[end..], dec).value, Unframe(g, dec));
    }
  }

  /** A successful decode accounts for every byte: the frame is one segment for
      each message, in order, and nothing else. */
  lemma {:induction false} UnframeConsumesAll<T>(frame: Bytes, dec: Bytes -> Option<T>) returns (chunks: seq<Bytes>)
    requires Unframe(frame, dec).Ok?
    ensures Concat(chunks) == frame && |chunks| == |Unframe(frame, dec).value|
    ensures forall i :: 0 <= i < |chunks| ==> IsSegment(chunks[i], Unframe(frame, dec).value[i], dec)
    decreases |frame|
  {
    if frame == [] { return []; }
    var x, end := FirstMessage(frame, [], dec);
    var tail := UnframeConsumesAll(frame[end..], dec);
    chunks := [frame[..end]] + tail;
    assert frame == frame[..end] + frame[end..];
  }
}
