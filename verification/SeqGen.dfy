/** Stream offsets as the wire's (seq, gen) pair: `pack_offset`, `unpack_offset` and
    `encode_position` of crates/centrifugo-core/src/client.rs. Packing multiplies by
    2^32 - 1 where unpacking divides by 2^32. */
module SeqGen {
  import opened Common

  /** A position as a SUBSCRIBE request or result carries it. */
  datatype WirePosition = WirePosition(sq: u32, gen: u32, offset: u64)

  function Unpack(v: u64): (u32, u32) {
    (v % TWO_32, v / TWO_32)
  }

  function Pack(sq: u32, gen: u32): (r: nat)
    ensures r < TWO_64
  {
    gen * (TWO_32 - 1) + sq
  }

  function EncodePosition(offset: u64, useSeqGen: bool): WirePosition {
    if useSeqGen then
      var (s, g) := Unpack(offset);
      WirePosition(s, g, 0)
    else WirePosition(0, 0, offset)
  }

  /** The offset a SUBSCRIBE asks to recover from. */
  function RequestedOffset(req: WirePosition): u64 {
    if req.sq > 0 || req.gen > 0 then Pack(req.sq, req.gen) else req.offset
  }

  /** The low half of an offset is its seq, the high half its gen: below 2^32 gen is 0 and
      seq is the offset. */
  lemma SeqIsLow(v: u64)
    ensures var (s, g) := Unpack(v); v == g * TWO_32 + s && (v < TWO_32 <==> g == 0) && (v < TWO_32 ==> s == v)
    ensures forall s: u32 :: Pack(s, 0) == s
  {
  }

  lemma PackUnpack(v: u64)
    ensures Pack(Unpack(v).0, Unpack(v).1) == v - v / TWO_32
    ensures Pack(Unpack(v).0, Unpack(v).1) == v <==> v < TWO_32
  {
    var (s, g) := Unpack(v);
    SeqIsLow(v);
    assert g * (TWO_32 - 1) == g * TWO_32 - g;
  }

  /** A client that echoes the position it was given asks to recover from at most
      that position, and from exactly it below 2^32 (or when offsets are sent). */
  lemma EchoNeverSkips(v: u64, useSeqGen: bool)
    ensures var back := RequestedOffset(EncodePosition(v, useSeqGen));
            && back == (if useSeqGen then v - v / TWO_32 else v)
            && back <= v
            && (back == v <==> !useSeqGen || v < TWO_32)
  {
    PackUnpack(v);
  }
}
