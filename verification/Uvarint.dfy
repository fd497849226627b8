/** The unsigned varints of crates/centrifugo-protocol/src/codec.rs: the "Base 128
    Varints" of the Protocol Buffers Encoding specification. */
module Uvarint {
  import opened Common

  const MAX_LEN := 10

  /** Low seven bits first; every byte but the last has its top bit set. */
  function Encode(v: nat): Bytes {
    if v < 0x80 then [v as byte] else [(v % 0x80 + 0x80) as byte] + Encode(v / 0x80)
  }

  /** The number a run of bytes spells, seven bits a byte, ignoring top bits. */
  function Value(bytes: Bytes): nat {
    if bytes == [] then 0 else bytes[0] as nat % 0x80 + 0x80 * Value(bytes[1..])
  }

  /** The length of the varint at the start of `buf`, or 0 if it never ends. */
  function Length(buf: Bytes): (n: nat)
    ensures n <= |buf|
    ensures n > 0 ==> buf[n - 1] < 0x80
    ensures forall i :: 0 <= i < (if n > 0 then n - 1 else |buf|) ==> buf[i] >= 0x80
  {
    if buf == [] then 0
    else if buf[0] < 0x80 then 1
    else
      var n := Length(buf[1..]);
      if n == 0 then 0 else n + 1
  }

  /** The value and length of the varint at the start of `buf`, read modulo 2^64;
      none if it does not end within ten bytes. */
  function Decode(buf: Bytes): Option<(u64, nat)> {
    var n := Length(buf);
    if n == 0 || n > MAX_LEN then None else Some((Value(buf[..n]) % TWO_64, n))
  }

  function Pow128(k: nat): nat {
    if k == 0 then 1 else 0x80 * Pow128(k - 1)
  }

  lemma Pow128Values()
    ensures Pow128(9) == 0x8000_0000_0000_0000 && Pow128(10) >= TWO_64
  {
    assert Pow128(3) == 0x20_0000;
    assert Pow128(6) == 0x400_0000_0000;
  }

  lemma {:induction false} ValueBound(bytes: Bytes)
    ensures Value(bytes) < Pow128(|bytes|)
  {
    if bytes != [] { ValueBound(bytes[1..]); }
  }

  lemma {:induction false} Pow128Grows(i: nat, j: nat)
    requires i <= j
    ensures Pow128(i) <= Pow128(j)
  {
    if i < j { Pow128Grows(i, j - 1); }
  }

  lemma {:induction false} ValueSnoc(bytes: Bytes, b: byte)
    ensures Value(bytes + [b]) == Value(bytes) + Pow128(|bytes|) * (b as nat % 0x80)
  {
    if bytes == [] {
      assert Value([b]) == b as nat % 0x80 + 0x80 * Value([]);
    } else {
      assert (bytes + [b])[1..] == bytes[1..] + [b];
      ValueSnoc(bytes[1..], b);
      Distribute(Value(bytes[1..]), Pow128(|bytes| - 1), b as nat % 0x80);
    }
  }

  lemma Distribute(a: nat, p: nat, k: nat)
    ensures 0x80 * (a + p * k) == 0x80 * a + 0x80 * p * k
  {
  }

  /** Appends the varint of `v0` to `out0`. */
  method EncodeUvarint(v0: u64, out0: Bytes) returns (out: Bytes)
    ensures out == out0 + Encode(v0)
  {
    var v: nat := v0;
    out := out0;
    while v >= 0x80
      invariant out + Encode(v) == out0 + Encode(v0)
    {
      out := out + [(v % 0x80 + 0x80) as byte];
      v := v / 0x80;
    }
    out := out + [v as byte];
  }

  lemma LengthStep(buf: Bytes, i: nat)
    requires i < |buf| && (Length(buf) == 0 || Length(buf) > i)
    ensures if buf[i] < 0x80 then Length(buf) == i + 1 else Length(buf) == 0 || Length(buf) > i + 1
  {
  }

  /** The bits shifted out of a `u64` are exactly those lost modulo 2^64. */
  lemma TruncatedTopByte(low: nat, k: nat)
    requires low < 0x8000_0000_0000_0000
    ensures (low + 0x8000_0000_0000_0000 * k) % TWO_64 == low + (0x8000_0000_0000_0000 * k) % TWO_64
  {
    assert k == 2 * (k / 2) + k % 2;
    assert 0x8000_0000_0000_0000 * k == TWO_64 * (k / 2) + 0x8000_0000_0000_0000 * (k % 2);
  }

  lemma AccumulateByte(buf: Bytes, i: nat, scale: nat, result: nat)
    requires i < |buf| && i < MAX_LEN && scale == Pow128(i) && result == Value(buf[..i])
    ensures result + (scale * (buf[i] as nat % 0x80)) % TWO_64 == Value(buf[..i + 1]) % TWO_64
    ensures i < 9 ==> Value(buf[..i + 1]) < TWO_64
  {
    hide Value, Pow128;
    assert buf[..i + 1] == buf[..i] + [buf[i]];
    ValueSnoc(buf[..i], buf[i]);
    ValueBound(buf[..i + 1]);
    ValueBound(buf[..i]);
    Pow128Values();
    if i < 9 {
      Pow128Grows(i + 1, 9);
      assert scale * (buf[i] as nat % 0x80) <= Value(buf[..i + 1]);
    } else {
      TruncatedTopByte(result, buf[i] as nat % 0x80);
    }
  }

  /** `scale` is `1 << shift`. The masked byte and `result` have no bit in common,
      so the `|` that merges them is their sum. */
  method DecodeUvarint(buf: Bytes) returns (r: Option<(u64, nat)>)
    ensures r == Decode(buf)
  {
    var result: nat := 0;
    var scale: nat := 1;
    var i: nat := 0;
    while i < |buf|
      invariant i <= |buf| && i <= MAX_LEN
      invariant scale == Pow128(i)
      invariant i < MAX_LEN ==> result == Value(buf[..i])
      invariant Length(buf) == 0 || Length(buf) > i
    {
      LengthStep(buf, i);
      if i >= MAX_LEN { return None; }
      AccumulateByte(buf, i, scale, result);
      result := result + (scale * (buf[i] as nat % 0x80)) % TWO_64;
      if buf[i] < 0x80 {
        return Some((result, i + 1));
      }
      scale := scale * 0x80;
      i := i + 1;
    }
    return None;
  }

  /** An encoding is one varint and spells its value. */
  lemma {:induction false} EncodeIsVarint(v: nat, rest: Bytes)
    ensures Length(Encode(v) + rest) == |Encode(v)| && Value(Encode(v)) == v
  {
    if v < 0x80 {
      assert Value([v as byte]) == v % 0x80 + 0x80 * Value([]);
    } else {
      EncodeIsVarint(v / 0x80, rest);
      assert (Encode(v) + rest)[1..] == Encode(v / 0x80) + rest;
      assert Encode(v)[1..] == Encode(v / 0x80);
    }
  }

  /** No run of bytes spelling the same value is shorter. */
  lemma {:induction false} EncodeIsShortest(bytes: Bytes)
    requires bytes != []
    ensures |Encode(Value(bytes))| <= |bytes|
  {
    var v := Value(bytes);
    if v >= 0x80 {
      assert bytes[1..] != [] by { assert Value([]) == 0; }
      EncodeIsShortest(bytes[1..]);
      assert v / 0x80 == Value(bytes[1..]);
    }
  }

  lemma {:induction false} EncodeLength(v: nat, k: nat)
    requires k > 0 && v < Pow128(k)
    ensures 1 <= |Encode(v)| <= k
  {
    if v >= 0x80 {
      assert Pow128(1) == 0x80 * Pow128(0);
      EncodeLength(v / 0x80, k - 1);
    }
  }

  /** Decoding undoes encoding, whatever follows it. */
  lemma DecodeEncode(v: u64, rest: Bytes)
    ensures 1 <= |Encode(v)| <= MAX_LEN
    ensures Decode(Encode(v) + rest) == Some((v, |Encode(v)|))
  {
    Pow128Values();
    EncodeLength(v, 10);
    EncodeIsVarint(v, rest);
    assert (Encode(v) + rest)[..|Encode(v)|] == Encode(v);
  }

  /** What a decoded prefix says does not depend on what follows it. */
  lemma {:induction false} LengthPrefix(buf: Bytes, rest: Bytes)
    requires Length(buf) > 0
    ensures Length(buf + rest) == Length(buf)
  {
    assert (buf + rest)[0] == buf[0];
    if buf[0] >= 0x80 {
      assert (buf + rest)[1..] == buf[1..] + rest;
      LengthPrefix(buf[1..], rest);
    }
  }

  /** A varint decodes the same when cut off right after its last byte. */
  lemma {:induction false} LengthOfCut(buf: Bytes, k: nat)
    requires 0 < Length(buf) <= k <= |buf|
    ensures Length(buf[..k]) == Length(buf)
  {
    if buf[0] >= 0x80 {
      assert buf[..k][1..] == buf[1..][..k - 1];
      LengthOfCut(buf[1..], k - 1);
    }
  }

  lemma DecodeCut(buf: Bytes, k: nat)
    requires Decode(buf).Some? && Length(buf) <= k <= |buf|
    ensures Decode(buf[..k]) == Decode(buf)
  {
    LengthOfCut(buf, k);
    assert buf[..k][..Length(buf)] == buf[..Length(buf)];
  }

  lemma DecodePrefix(buf: Bytes, rest: Bytes)
    requires Decode(buf).Some?
    ensures Decode(buf + rest) == Decode(buf)
  {
    LengthPrefix(buf, rest);
    assert (buf + rest)[..Length(buf)] == buf[..Length(buf)];
  }
}
