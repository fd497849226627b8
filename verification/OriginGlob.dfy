/** The allow-list for the `Origin` header: crates/centrifugo-server/src/origin.rs. */
module OriginGlob {
  import opened Common

  const STAR: byte := 0x2A
  const QUESTION: byte := 0x3F

  /** What `*` (any run) and `?` (any single byte) are documented to mean. */
  ghost predicate Matches(pat: Bytes, text: Bytes)
    decreases |pat| + |text|
  {
    if pat == [] then text == []
    else if pat[0] == STAR then
      Matches(pat[1..], text) || (text != [] && Matches(pat, text[1..]))
    else
      text != [] && (pat[0] == QUESTION || pat[0] == text[0]) && Matches(pat[1..], text[1..])
  }

  /** What the matcher decides: its literal test comes before its `*` test, so a
      `*` in the pattern that faces a `*` in the text consumes just that byte. */
  ghost predicate LiteralFirst(pat: Bytes, text: Bytes)
    decreases |pat|
  {
    if pat == [] then text == []
    else if text != [] && (pat[0] == QUESTION || pat[0] == text[0]) then LiteralFirst(pat[1..], text[1..])
    else pat[0] == STAR && exists k :: 0 <= k <= |text| && LiteralFirst(pat[1..], text[k..])
  }

  /** `seg` consumes `text` byte by byte, without a `*` acting as a wildcard. */
  ghost predicate Consumes(seg: Bytes, text: Bytes) {
    && |seg| == |text|
    && forall i :: 0 <= i < |seg| ==> seg[i] == QUESTION || seg[i] == text[i]
  }

  /** A pattern byte that could take the first byte of the text, taken later, leaves the
      rest of the pattern no earlier than the second. */
  lemma LaterByte(pat: Bytes, text: Bytes, d: nat) returns (e: nat)
    requires pat != [] && text != [] && (pat[0] == QUESTION || pat[0] == text[0])
    requires d <= |text| && LiteralFirst(pat, text[d..])
    ensures e <= |text[1..]| && LiteralFirst(pat[1..], text[1..][e..])
  {
    if d < |text| && (pat[0] == QUESTION || pat[0] == text[d]) {
      assert text[d..][1..] == text[1..][d..];
      e := d;
    } else {
      var j :| 0 <= j <= |text[d..]| && LiteralFirst(pat[1..], text[d..][j..]);
      assert text[d..][j..] == text[1..][d + j - 1..];
      e := d + j - 1;
    }
  }

  /** Why forgetting every `*` but the last is safe: if a segment consumed the text
      from its start, every later alignment leaves the segment no earlier. */
  lemma {:induction false} LaterAlignment(seg: Bytes, rest: Bytes, text: Bytes, d: nat) returns (k: nat)
    requires |seg| <= |text| && Consumes(seg, text[..|seg|])
    requires d <= |text| && LiteralFirst(seg + rest, text[d..])
    ensures |seg| <= k <= |text| && LiteralFirst(rest, text[k..])
  {
    hide LiteralFirst, Consumes;
    if seg == [] {
      assert seg + rest == rest;
      return d;
    }
    ConsumesTail(seg, text);
    assert (seg + rest)[1..] == seg[1..] + rest;
    var e := LaterByte(seg + rest, text, d);
    k := LaterAlignment(seg[1..], rest, text[1..], e);
    assert text[1..][k..] == text[k + 1..];
    k := k + 1;
  }

  /** A `*` reached at `text[k..]` can swallow its way to some later suffix. */
  lemma StarSwallows(pat: Bytes, text: Bytes, k: nat) returns (j: nat)
    requires pat != [] && pat[0] == STAR && k <= |text| && LiteralFirst(pat, text[k..])
    ensures k <= j <= |text| && LiteralFirst(pat[1..], text[j..])
  {
    if k < |text| && text[k] == STAR {
      j := k + 1;
      assert text[k..][1..] == text[j..];
    } else {
      var i :| 0 <= i <= |text[k..]| && LiteralFirst(pat[1..], text[k..][i..]);
      j := k + i;
      assert text[k..][i..] == text[j..];
    }
  }

  /** The loop invariant: from the remembered `*`, the answer is decided by some
      suffix at or after `mark`; the current attempt is the one at `mark`. */
  ghost predicate Pending(pat: Bytes, text: Bytes, p: nat, t: nat, star: Option<nat>, mark: nat) {
    && p <= |pat| && t <= |text|
    && match star
       case None =>
         LiteralFirst(pat, text) == LiteralFirst(pat[p..], text[t..])
       case Some(sp) =>
         && sp < p && mark <= t && p - sp - 1 == t - mark && pat[sp] == STAR
         && Consumes(pat[sp + 1..p], text[mark..t])
         && (LiteralFirst(pat, text) <==> exists k :: mark <= k <= |text| && LiteralFirst(pat[sp + 1..], text[k..]))
  }

  /** One matched byte keeps the invariant. */
  lemma StepLiteral(pat: Bytes, text: Bytes, p: nat, t: nat, star: Option<nat>, mark: nat)
    requires Pending(pat, text, p, t, star, mark)
    requires t < |text| && p < |pat| && (pat[p] == QUESTION || pat[p] == text[t])
    ensures Pending(pat, text, p + 1, t + 1, star, mark)
  {
    assert pat[p..][1..] == pat[p + 1..] && text[t..][1..] == text[t + 1..];
    if star.Some? {
      assert pat[star.value + 1..p + 1] == pat[star.value + 1..p] + [pat[p]];
      assert text[mark..t + 1] == text[mark..t] + [text[t]];
    }
  }

  /** Some later alignment of the remembered `*` reaches `pat[p..]` at or after `t`. */
  lemma Reaches(pat: Bytes, text: Bytes, p: nat, t: nat, sp: nat, mark: nat) returns (k: nat)
    requires Pending(pat, text, p, t, Some(sp), mark) && LiteralFirst(pat, text)
    ensures t <= k <= |text| && LiteralFirst(pat[p..], text[k..])
  {
    hide LiteralFirst, Consumes;
    var k0 :| mark <= k0 <= |text| && LiteralFirst(pat[sp + 1..], text[k0..]);
    assert pat[sp + 1..] == pat[sp + 1..p] + pat[p..];
    assert text[mark..][..p - sp - 1] == text[mark..t];
    assert text[mark..][k0 - mark..] == text[k0..];
    k := LaterAlignment(pat[sp + 1..p], pat[p..], text[mark..], k0 - mark);
    k := k + mark;
    assert text[mark..][k - mark..] == text[k..];
  }

  lemma ConsumesTail(seg: Bytes, text: Bytes)
    requires seg != [] && |seg| <= |text| && Consumes(seg, text[..|seg|])
    ensures seg[0] == QUESTION || seg[0] == text[0]
    ensures Consumes(seg[1..], text[1..][..|seg| - 1])
  {
    assert text[..|seg|][0] == text[0];
    assert text[1..][..|seg| - 1] == text[..|seg|][1..];
  }

  /** A segment that consumed its bytes leaves the decision to the rest. */
  lemma {:induction false} ConsumedSegment(seg: Bytes, rest: Bytes, text: Bytes)
    requires |seg| <= |text| && Consumes(seg, text[..|seg|])
    ensures LiteralFirst(seg + rest, text) == LiteralFirst(rest, text[|seg|..])
  {
    if seg == [] {
      assert seg + rest == rest && text[0..] == text;
    } else {
      assert (seg + rest)[1..] == seg[1..] + rest;
      ConsumesTail(seg, text);
      assert text[1..][|seg| - 1..] == text[|seg|..];
      ConsumedSegment(seg[1..], rest, text[1..]);
    }
  }

  lemma AttemptDecides(pat: Bytes, text: Bytes, p: nat, t: nat, sp: nat, mark: nat)
    requires Pending(pat, text, p, t, Some(sp), mark)
    ensures LiteralFirst(pat[p..], text[t..]) ==> LiteralFirst(pat[sp + 1..], text[mark..]) && LiteralFirst(pat, text)
    ensures LiteralFirst(pat[sp + 1..], text[mark..]) ==> exists k :: t <= k <= |text| && LiteralFirst(pat[p..], text[k..])
  {
    assert pat[sp + 1..] == pat[sp + 1..p] + pat[p..];
    assert text[mark..][..p - sp - 1] == text[mark..t] && text[mark..][t - mark..] == text[t..];
    ConsumedSegment(pat[sp + 1..p], pat[p..], text[mark..]);
    if LiteralFirst(pat[sp + 1..], text[mark..]) {
      var k := Reaches(pat, text, p, t, sp, mark);
    }
  }

  /** Remembering a new `*` and forgetting the old one keeps the invariant. */
  lemma StepStar(pat: Bytes, text: Bytes, p: nat, t: nat, star: Option<nat>, mark: nat)
    requires Pending(pat, text, p, t, star, mark)
    requires t < |text| && p < |pat| && pat[p] == STAR && text[t] != STAR
    ensures Pending(pat, text, p + 1, t, Some(p), t)
  {
    assert pat[p..][1..] == pat[p + 1..];
    assert forall k :: 0 <= k <= |text| - t ==> text[t..][k..] == text[t + k..];
    assert LiteralFirst(pat[p..], text[t..]) <==> exists k :: t <= k <= |text| && LiteralFirst(pat[p + 1..], text[k..]) by {
      if k :| t <= k <= |text| && LiteralFirst(pat[p + 1..], text[k..]) {
        assert text[t..][k - t..] == text[k..];
      }
    }
    if star.Some? {
      AttemptDecides(pat, text, p, t, star.value, mark);
      if LiteralFirst(pat, text) {
        var k := Reaches(pat, text, p, t, star.value, mark);
        k := StarSwallows(pat[p..], text, k);
      }
    }
  }

  /** Moving the remembered `*` past one more byte keeps the invariant. */
  lemma StepBacktrack(pat: Bytes, text: Bytes, p: nat, t: nat, sp: nat, mark: nat)
    requires Pending(pat, text, p, t, Some(sp), mark) && t < |text|
    requires p == |pat| || (pat[p] != QUESTION && pat[p] != text[t] && pat[p] != STAR)
    ensures Pending(pat, text, sp + 1, mark + 1, Some(sp), mark + 1)
  {
    assert !LiteralFirst(pat[p..], text[t..]);
    assert pat[sp + 1..] == pat[sp + 1..p] + pat[p..];
    assert text[mark..][..p - sp - 1] == text[mark..t] && text[mark..][t - mark..] == text[t..];
    ConsumedSegment(pat[sp + 1..p], pat[p..], text[mark..]);
  }

  /** At the end of the text only trailing `*`s are left to check. */
  lemma AtEnd(pat: Bytes, text: Bytes, p: nat, star: Option<nat>, mark: nat)
    requires Pending(pat, text, p, |text|, star, mark)
    ensures LiteralFirst(pat, text) == LiteralFirst(pat[p..], [])
  {
    assert text[|text|..] == [];
    if star.Some? {
      AttemptDecides(pat, text, p, |text|, star.value, mark);
      if LiteralFirst(pat, text) {
        var k := Reaches(pat, text, p, |text|, star.value, mark);
      }
    }
  }

  lemma EmptyTextStar(pat: Bytes)
    requires pat != [] && pat[0] == STAR
    ensures LiteralFirst(pat, []) == LiteralFirst(pat[1..], [])
  {
    var none: Bytes := [];
    assert none[0..] == none;
  }

  lemma Start(pat: Bytes, text: Bytes)
    ensures Pending(pat, text, 0, 0, None, 0)
  {
    assert pat[0..] == pat && text[0..] == text;
  }

  lemma NoStarToFallBackOn(pat: Bytes, text: Bytes, p: nat, t: nat, mark: nat)
    requires Pending(pat, text, p, t, None, mark) && t < |text|
    requires p == |pat| || (pat[p] != QUESTION && pat[p] != text[t] && pat[p] != STAR)
    ensures !LiteralFirst(pat, text)
  {
  }

  /** The greedy matcher that backtracks to the last `*` only. */
  method GlobMatch(pat: Bytes, text: Bytes) returns (accepted: bool)
    ensures accepted == LiteralFirst(pat, text)
  {
    hide LiteralFirst, Consumes;
    var p: nat, t: nat := 0, 0;
    var star: Option<nat> := None;
    var mark: nat := 0;
    Start(pat, text);
    while t < |text|
      invariant Pending(pat, text, p, t, star, mark)
      invariant p <= |pat| && mark <= t <= |text|
      decreases |text| - mark, |text| - t, |pat| - p
    {
      if p < |pat| && (pat[p] == QUESTION || pat[p] == text[t]) {
        StepLiteral(pat, text, p, t, star, mark);
        p, t := p + 1, t + 1;
      } else if p < |pat| && pat[p] == STAR {
        StepStar(pat, text, p, t, star, mark);
        star, mark := Some(p), t;
        p := p + 1;
      } else if star.Some? {
        StepBacktrack(pat, text, p, t, star.value, mark);
        p := star.value + 1;
        mark := mark + 1;
        t := mark;
      } else {
        NoStarToFallBackOn(pat, text, p, t, mark);
        return false;
      }
    }
    AtEnd(pat, text, p, star, mark);
    accepted := OnlyStars(pat, p);
  }

  /** The tail of the matcher: trailing `*`s match the empty remainder. */
  method OnlyStars(pat: Bytes, from: nat) returns (accepted: bool)
    requires from <= |pat|
    ensures accepted == LiteralFirst(pat[from..], [])
  {
    var p := from;
    while p < |pat| && pat[p] == STAR
      invariant from <= p <= |pat|
      invariant LiteralFirst(pat[from..], []) == LiteralFirst(pat[p..], [])
    {
      EmptyTextStar(pat[p..]);
      assert pat[p..][1..] == pat[p + 1..];
      p := p + 1;
    }
    accepted := p == |pat|;
  }

  lemma StarMatchesSuffix(pat: Bytes, text: Bytes, k: nat)
    requires pat != [] && pat[0] == STAR && k <= |text| && Matches(pat[1..], text[k..])
    ensures Matches(pat, text)
    decreases k
  {
    if k == 0 {
      assert text[0..] == text;
    } else {
      assert text[1..][k - 1..] == text[k..];
      StarMatchesSuffix(pat, text[1..], k - 1);
    }
  }

  /** Never a bypass: whatever is accepted, the documented meaning accepts. */
  lemma {:induction false} LiteralFirstIsSound(pat: Bytes, text: Bytes)
    ensures LiteralFirst(pat, text) ==> Matches(pat, text)
    decreases |pat|
  {
    if pat != [] && LiteralFirst(pat, text) {
      if text != [] && (pat[0] == QUESTION || pat[0] == text[0]) {
        LiteralFirstIsSound(pat[1..], text[1..]);
        if pat[0] == STAR { StarMatchesSuffix(pat, text, 1); }
      } else {
        var k :| 0 <= k <= |text| && LiteralFirst(pat[1..], text[k..]);
        LiteralFirstIsSound(pat[1..], text[k..]);
        StarMatchesSuffix(pat, text, k);
      }
    }
  }

  lemma {:induction false} LiteralFirstIsComplete(pat: Bytes, text: Bytes)
    requires STAR !in text
    ensures Matches(pat, text) ==> LiteralFirst(pat, text)
    decreases |pat| + |text|
  {
    if pat != [] && Matches(pat, text) {
      if pat[0] != STAR {
        LiteralFirstIsComplete(pat[1..], text[1..]);
      } else if Matches(pat[1..], text) {
        LiteralFirstIsComplete(pat[1..], text);
        assert text[0..] == text;
      } else {
        LiteralFirstIsComplete(pat, text[1..]);
        var k := StarSwallows(pat, text[1..], 0) by { assert text[1..][0..] == text[1..]; }
        assert text[1..][k..] == text[k + 1..];
      }
    }
  }

  /** `n` single-byte wildcards. */
  function Wildcards(n: nat): Bytes {
    seq(n, _ => QUESTION)
  }

  lemma {:induction false} WildcardsMatchLength(n: nat, text: Bytes)
    ensures Matches(Wildcards(n), text) == LiteralFirst(Wildcards(n), text) == (|text| == n)
  {
    if n > 0 && text != [] {
      assert Wildcards(n)[1..] == Wildcards(n - 1);
      WildcardsMatchLength(n - 1, text[1..]);
    }
  }

  /** The pattern a text with a `*` at `i` is wrongly refused by. */
  function WronglyRefusing(text: Bytes, i: nat): Bytes
    requires i < |text|
  {
    text[..i] + ([STAR] + Wildcards(|text| - i))
  }

  lemma {:induction false} RefusedAlthoughMatching(text: Bytes, i: nat)
    requires i < |text| && text[i] == STAR && STAR !in text[..i]
    ensures Matches(WronglyRefusing(text, i), text) && !LiteralFirst(WronglyRefusing(text, i), text)
  {
    var pat := WronglyRefusing(text, i);
    if i == 0 {
      assert pat == [STAR] + Wildcards(|text|);
      assert pat[1..] == Wildcards(|text|);
      WildcardsMatchLength(|text|, text);
      WildcardsMatchLength(|text|, text[1..]);
    } else {
      assert pat[0] == text[..i][0] == text[0];
      assert pat[1..] == WronglyRefusing(text[1..], i - 1) by {
        assert text[1..][..i - 1] == text[..i][1..];
      }
      RefusedAlthoughMatching(text[1..], i - 1);
    }
  }

  /** The matcher agrees with its documentation on a text, whatever the pattern,
      exactly when the text has no `*` byte. */
  lemma AgreesExactlyWithoutStar(text: Bytes)
    ensures (forall pat :: LiteralFirst(pat, text) == Matches(pat, text)) <==> STAR !in text
  {
    if STAR !in text {
      forall pat ensures LiteralFirst(pat, text) == Matches(pat, text) {
        LiteralFirstIsSound(pat, text);
        LiteralFirstIsComplete(pat, text);
      }
    } else {
      var i := FirstStar(text);
      RefusedAlthoughMatching(text, i);
    }
  }

  /** Every byte of a pattern taken literally, the matcher goes through it in step. */
  lemma {:induction false} LiterallyAhead(front: Bytes, pat: Bytes, text: Bytes)
    ensures LiteralFirst(front + pat, front + text) == LiteralFirst(pat, text)
    ensures Matches(pat, text) ==> Matches(front + pat, front + text)
  {
    if front == [] {
      assert front + pat == pat && front + text == text;
    } else {
      assert (front + pat)[1..] == front[1..] + pat && (front + text)[1..] == front[1..] + text;
      LiterallyAhead(front[1..], pat, text);
      if front[0] == STAR && Matches(pat, text) { StarMatchesSuffix(front + pat, front + text, 1); }
    }
  }

  /** Without a `*` a pattern and the texts it accepts are of one length. */
  lemma {:induction false} StarlessPattern(pat: Bytes, text: Bytes)
    requires STAR !in pat
    ensures LiteralFirst(pat, text) == Matches(pat, text)
    ensures Matches(pat, text) ==> |text| == |pat|
  {
    if pat != [] && text != [] { StarlessPattern(pat[1..], text[1..]); }
  }

  /** The pattern itself as a text, with one byte more after its last `*`. */
  function OneByteMore(pat: Bytes, i: nat): Bytes
    requires i < |pat|
  {
    pat[..i] + ([STAR, STAR] + pat[i + 1..])
  }

  lemma RefusesItselfLonger(pat: Bytes, i: nat)
    requires i < |pat| && pat[i] == STAR && STAR !in pat[i + 1..]
    ensures Matches(pat, OneByteMore(pat, i)) && !LiteralFirst(pat, OneByteMore(pat, i))
  {
    hide Matches, LiteralFirst;
    var front, rest := pat[..i], pat[i + 1..];
    assert front + ([STAR] + rest) == pat;
    LastStarSwallowsTwo(rest);
    LiterallyAhead(front, [STAR] + rest, [STAR, STAR] + rest);
  }

  lemma LastStarSwallowsTwo(rest: Bytes)
    requires STAR !in rest
    ensures Matches([STAR] + rest, [STAR, STAR] + rest) && !LiteralFirst([STAR] + rest, [STAR, STAR] + rest)
  {
    var tail, text := [STAR] + rest, [STAR, STAR] + rest;
    assert tail[1..] == rest && text[1..] == tail && text[2..] == rest;
    MatchesItself(rest);
    StarMatchesSuffix(tail, text, 2);
    StarlessPattern(rest, tail);
  }

  lemma MatchesItself(pat: Bytes)
    ensures Matches(pat, pat)
  {
    LiterallyAhead(pat, [], []);
    assert pat + [] == pat;
  }

  /** The matcher agrees with its documentation on a pattern, whatever the text, exactly
      when the pattern has no `*`: the pattern `*` refuses the text `**`. */
  lemma DecidedAsDocumentedWithoutStar(pat: Bytes)
    ensures (forall text :: LiteralFirst(pat, text) == Matches(pat, text)) <==> STAR !in pat
  {
    if STAR !in pat {
      forall text ensures LiteralFirst(pat, text) == Matches(pat, text) {
        StarlessPattern(pat, text);
      }
    } else {
      var i := LastStar(pat);
      RefusesItselfLonger(pat, i);
    }
  }

  /** The pattern `*` is meant to allow everything; it refuses exactly the longer texts
      that start with a `*`. */
  lemma StarRefusesExactly(text: Bytes)
    ensures Matches([STAR], text)
    ensures LiteralFirst([STAR], text) <==> !(|text| > 1 && text[0] == STAR)
  {
    assert [STAR][1..] == [] && text[|text|..] == [];
    StarMatchesSuffix([STAR], text, |text|);
  }

  lemma LastStar(pat: Bytes) returns (i: nat)
    requires STAR in pat
    ensures i < |pat| && pat[i] == STAR && STAR !in pat[i + 1..]
  {
    i := |pat| - 1;
    while pat[i] != STAR
      invariant i < |pat| && STAR !in pat[i + 1..] && STAR in pat[..i + 1]
      decreases i
    {
      assert pat[i..] == [pat[i]] + pat[i + 1..];
      assert pat[..i + 1] == pat[..i] + [pat[i]];
      i := i - 1;
    }
  }

  lemma FirstStar(text: Bytes) returns (i: nat)
    requires STAR in text
    ensures i < |text| && text[i] == STAR && STAR !in text[..i]
  {
    i := 0;
    while text[i] != STAR
      invariant i < |text| && STAR !in text[..i] && STAR in text[i..]
      decreases |text| - i
    {
      assert text[i..] == [text[i]] + text[i + 1..];
      assert text[..i + 1] == text[..i] + [text[i]];
      i := i + 1;
    }
  }

  /** Rust's `to_ascii_lowercase`. */
  function ToAsciiLowercase(s: Bytes): Bytes {
    seq(|s|, i requires 0 <= i < |s| => if 0x41 <= s[i] <= 0x5A then s[i] + 0x20 else s[i])
  }

  ghost predicate Capital(b: byte) { 'A' as int <= b as int <= 'Z' as int }

  /** The same byte, or a capital letter and its small one. */
  ghost predicate SameLetter(a: byte, b: byte) {
    || a == b
    || (Capital(a) && b as int - 'a' as int == a as int - 'A' as int)
    || (Capital(b) && a as int - 'a' as int == b as int - 'A' as int)
  }

  /** Two headers are looked up alike exactly when they differ only in the case of
      letters, and a header is looked up as it is exactly when it has no capitals. */
  lemma IgnoresCaseExactly(s: Bytes, t: Bytes)
    ensures ToAsciiLowercase(s) == ToAsciiLowercase(t) <==> |s| == |t| && forall i :: 0 <= i < |s| ==> SameLetter(s[i], t[i])
    ensures ToAsciiLowercase(s) == s <==> forall i :: 0 <= i < |s| ==> !Capital(s[i])
  {
    var a, b := ToAsciiLowercase(s), ToAsciiLowercase(t);
    if a == b {
      forall i | 0 <= i < |s| ensures SameLetter(s[i], t[i]) {
        assert a[i] == b[i];
      }
    }
    if a == s {
      forall i | 0 <= i < |s| ensures !Capital(s[i]) {
        assert a[i] == s[i];
      }
    }
  }

  datatype OriginChecker = OriginChecker(allowAll: bool, patterns: seq<Bytes>) {
    /** A configured list, even an empty one, is all that is allowed; without one
        everything is. */
    static function New(allowed: Option<seq<Bytes>>): (checker: OriginChecker)
      ensures checker.allowAll <==> allowed == None
      ensures allowed.Some? ==> checker.patterns == allowed.value
    {
      match allowed
      case None => OriginChecker(true, [])
      case Some(list) => OriginChecker(false, list)
    }

    /** Whether a request bearing this `Origin` header, if any, is allowed: an
        unconfigured list or an absent or empty header allows it, otherwise the
        lower-cased header must match a pattern. */
    method Check(origin: Option<Bytes>) returns (allowed: bool)
      ensures allowAll || origin == None || origin == Some([]) ==> allowed
      ensures !allowAll && origin.Some? && origin.value != [] && allowed ==>
                exists pat :: pat in patterns && Matches(pat, ToAsciiLowercase(origin.value))
      ensures !allowAll && origin.Some? && origin.value != [] && STAR !in origin.value ==>
                (allowed <==> exists pat :: pat in patterns && Matches(pat, ToAsciiLowercase(origin.value)))
      ensures !allowAll && origin.Some? && origin.value != [] ==>
                (allowed <==> exists pat :: pat in patterns && LiteralFirst(pat, ToAsciiLowercase(origin.value)))
    {
      if allowAll { return true; }
      if origin == None || origin.value == [] { return true; }
      var lower := ToAsciiLowercase(origin.value);
      assert STAR !in origin.value ==> STAR !in lower;
      var i := 0;
      while i < |patterns|
        invariant i <= |patterns|
        invariant forall pat :: pat in patterns[..i] ==> !LiteralFirst(pat, lower)
        invariant STAR !in lower ==> forall pat :: pat in patterns[..i] ==> !Matches(pat, lower)
      {
        var hit := GlobMatch(patterns[i], lower);
        LiteralFirstIsSound(patterns[i], lower);
        if STAR !in lower { LiteralFirstIsComplete(patterns[i], lower); }
        if hit { return true; }
        assert patterns[..i + 1] == patterns[..i] + [patterns[i]];
        i := i + 1;
      }
      assert patterns[..i] == patterns;
      return false;
    }
  }
}
