/** The framing of messages and history entries stored in or sent through Redis:
    `extract_push` and its producers in crates/centrifugo-redis/src/lib.rs. */
module PushFormat {
  import opened Common

  const UNDERSCORE: byte := 0x5F
  const PLUS: byte := 0x2B
  const ZERO: byte := 0x30
  const MARK: Bytes := [UNDERSCORE, UNDERSCORE]
  const JOIN: Bytes := [0x6A]
  const LEAVE: Bytes := [0x6C]

  datatype Kind = Pub | Join | Leave

  datatype Extracted = Extracted(kind: Kind, offset: u64, body: Bytes)

  predicate MarkAt(s: Bytes, i: nat) {
    i + 2 <= |s| && s[i] == UNDERSCORE && s[i + 1] == UNDERSCORE
  }

  /** The position of the first `__`. */
  function FindMark(s: Bytes): (r: Option<nat>)
    ensures r.Some? ==> MarkAt(s, r.value)
  {
    if |s| < 2 then None
    else if MarkAt(s, 0) then Some(0)
    else match FindMark(s[1..])
      case None => None
      case Some(i) => Some(i + 1)
  }

  predicate IsDigit(b: byte) {
    ZERO <= b <= ZERO + 9
  }

  predicate AllDigits(s: Bytes) {
    forall i :: 0 <= i < |s| ==> IsDigit(s[i])
  }

  function DigitsValue(s: Bytes): nat
    requires AllDigits(s)
  {
    if s == [] then 0 else 10 * DigitsValue(s[..|s| - 1]) + (s[|s| - 1] - ZERO) as nat
  }

  /** Rust's `str::parse::<u64>`. */
  function ParseU64(s: Bytes): Option<u64> {
    var digits := if |s| > 1 && s[0] == PLUS then s[1..] else s;
    if digits == [] || !AllDigits(digits) || DigitsValue(digits) >= TWO_64 then None
    else Some(DigitsValue(digits))
  }

  /** A number in decimal, as Lua's `..` writes it. */
  function Decimal(n: nat): (s: Bytes)
    ensures s != [] && AllDigits(s) && DigitsValue(s) == n
  {
    var last := [(n % 10) as byte + ZERO];
    if n < 10 then assert last[..0] == []; last
    else
      var s := Decimal(n / 10) + last;
      assert s[..|s| - 1] == Decimal(n / 10);
      s
  }

  function ExtractPush(data: Bytes): Extracted {
    if MarkAt(data, 0) && FindMark(data[2..]).Some? then
      var rest := data[2..];
      var pos := FindMark(rest).value;
      var marker, body := rest[..pos], rest[pos + 2..];
      if marker == JOIN then Extracted(Join, 0, body)
      else if marker == LEAVE then Extracted(Leave, 0, body)
      else match ParseU64(marker)
        case Some(offset) => Extracted(Pub, offset, body)
        case None => Extracted(Pub, 0, body)
    else Extracted(Pub, 0, data)
  }

  /** What the history script stores and publishes. */
  function OffsetFrame(offset: nat, body: Bytes): Bytes {
    MARK + Decimal(offset) + MARK + body
  }

  function JoinFrame(info: Bytes): Bytes { MARK + JOIN + MARK + info }

  function LeaveFrame(info: Bytes): Bytes { MARK + LEAVE + MARK + info }

  lemma {:induction false} FindMarkAfter(marker: Bytes, body: Bytes)
    requires UNDERSCORE !in marker
    ensures FindMark(marker + MARK + body) == Some(|marker|)
  {
    var s := marker + MARK + body;
    if marker != [] {
      assert s[0] == marker[0];
      assert s[1..] == marker[1..] + MARK + body;
      FindMarkAfter(marker[1..], body);
    }
  }

  lemma MarkerSplits(marker: Bytes, body: Bytes)
    requires UNDERSCORE !in marker
    ensures var data := MARK + marker + MARK + body;
            && MarkAt(data, 0) && FindMark(data[2..]) == Some(|marker|)
            && data[2..][..|marker|] == marker && data[2..][|marker| + 2..] == body
  {
    var data := MARK + marker + MARK + body;
    assert data[2..] == marker + MARK + body;
    FindMarkAfter(marker, body);
  }

  lemma DigitsAreNoMarker(s: Bytes)
    requires s != [] && AllDigits(s)
    ensures UNDERSCORE !in s && s[0] != PLUS && s != JOIN && s != LEAVE
  {
    assert !IsDigit(UNDERSCORE) && !IsDigit(PLUS) && IsDigit(s[0]);
  }

  /** The parser reads back what every producer writes, whatever bytes the body
      has: history frames with any `u64` offset, joins and leaves. */
  lemma ExtractInvertsProducers(offset: u64, body: Bytes)
    ensures ExtractPush(OffsetFrame(offset, body)) == Extracted(Pub, offset, body)
    ensures ExtractPush(JoinFrame(body)) == Extracted(Join, 0, body)
    ensures ExtractPush(LeaveFrame(body)) == Extracted(Leave, 0, body)
  {
    DigitsAreNoMarker(Decimal(offset));
    MarkerSplits(Decimal(offset), body);
    MarkerSplits(JOIN, body);
    MarkerSplits(LEAVE, body);
  }

  /** An unframed publication is read as itself exactly when it does not both start
      with `__` and have another `__` after that. */
  lemma RawReadAsItself(data: Bytes)
    ensures ExtractPush(data) == Extracted(Pub, 0, data) <==>
            !(MarkAt(data, 0) && exists i :: i >= 2 && MarkAt(data, i))
  {
    if MarkAt(data, 0) {
      FindMarkComplete(data, 2);
      if FindMark(data[2..]).Some? {
        assert MarkAt(data, FindMark(data[2..]).value + 2);
        assert |ExtractPush(data).body| < |data|;
      }
    }
  }

  lemma {:induction false} FindMarkComplete(s: Bytes, from: nat)
    requires from <= |s|
    ensures FindMark(s[from..]).None? ==> forall i :: i >= from ==> !MarkAt(s, i)
    decreases |s| - from
  {
    if |s| - from >= 2 && FindMark(s[from..]).None? {
      assert s[from..][1..] == s[from + 1..];
      FindMarkComplete(s, from + 1);
      assert !MarkAt(s, from);
    }
  }
}
