/** Presence in Redis: the three Lua scripts of crates/centrifugo-redis/src/lib.rs on
    the two keys of one channel. Times are one monotone clock in milliseconds, which
    the engine reads in whole seconds. */
module RedisPresence {
  import opened Types

  /** A client's last add that no remove followed. */
  datatype Seen = Seen(at: nat, info: ClientInfo)

  /** An entry added at `at` is still current at `now`. */
  predicate Current(at: nat, now: nat, ttl: nat) {
    at / 1000 + ttl > now / 1000
  }

  class RedisPresence {
    /** Expire-at second of every client, and its info. */
    var zset: map<ClientId, nat>
    var hash: map<ClientId, ClientInfo>
    /** When Redis drops each key as a whole. */
    var zsetExpireAt: nat
    var hashExpireAt: nat
    const ttl: nat

    ghost var seen: map<ClientId, Seen>
    ghost var clock: nat

    ghost predicate Valid() reads this {
      && zset.Keys == hash.Keys
      && zsetExpireAt == hashExpireAt
      && (forall c :: c in zset ==> c in seen && zset[c] == seen[c].at / 1000 + ttl && hash[c] == seen[c].info)
      && (forall c :: c in seen ==> seen[c].at <= clock && seen[c].at + 1000 * ttl <= zsetExpireAt)
      && (forall c :: c in seen && Current(seen[c].at, clock, ttl) ==> c in zset)
    }

    constructor (ttl: nat)
      ensures Valid() && seen == map[] && this.ttl == ttl && clock == 0
    {
      this.ttl := ttl;
      zset, hash, zsetExpireAt, hashExpireAt, seen, clock := map[], map[], 0, 0, map[], 0;
    }

    /** Redis drops a key whose time has passed; no current entry goes with it. */
    method ExpireKeys(now: nat)
      requires Valid() && clock <= now
      modifies this
      ensures Valid() && seen == old(seen) && clock == now
    {
      if now > zsetExpireAt { zset := map[]; }
      if now > hashExpireAt { hash := map[]; }
      clock := now;
    }

    method Add(now: nat, client: ClientId, info: ClientInfo)
      requires Valid() && clock <= now
      modifies this
      ensures Valid() && seen == old(seen)[client := Seen(now, info)] && clock == now
    {
      ExpireKeys(now);
      Store(now, client, info);
    }

    /** Sets the entry and restarts both keys' time to live; one of 0 deletes a key. */
    method Store(now: nat, client: ClientId, info: ClientInfo)
      requires Valid() && clock == now
      modifies `seen, `zset, `hash, `zsetExpireAt, `hashExpireAt
      ensures Valid() && seen == old(seen)[client := Seen(now, info)]
    {
      seen := seen[client := Seen(now, info)];
      zset := zset[client := now / 1000 + ttl];
      hash := hash[client := info];
      zsetExpireAt := now + 1000 * ttl;
      if ttl == 0 { zset := map[]; }
      hashExpireAt := now + 1000 * ttl;
      if ttl == 0 { hash := map[]; }
    }

    method Remove(now: nat, client: ClientId)
      requires Valid() && clock <= now
      modifies this
      ensures Valid() && seen == old(seen) - {client} && clock == now
    {
      ExpireKeys(now);
      seen := seen - {client};
      hash := hash - {client};
      zset := zset - {client};
    }

    /** Prunes the expired members and returns the rest: exactly the clients whose
        last add is current and was not followed by a remove. */
    method Read(now: nat) returns (present: map<ClientId, ClientInfo>)
      requires Valid() && clock <= now
      modifies this
      ensures Valid() && seen == old(seen) && clock == now
      ensures present == map c | c in seen && Current(seen[c].at, now, ttl) :: seen[c].info
    {
      ExpireKeys(now);
      Prune(now);
      present := hash;
    }

    /** Takes the expired members out of both keys. */
    method Prune(now: nat)
      requires Valid() && clock == now
      modifies `zset, `hash
      ensures Valid() && forall c :: c in hash <==> c in seen && Current(seen[c].at, clock, ttl)
    {
      var expired := set c | c in zset && zset[c] <= now / 1000;
      assert forall c :: c in zset && c !in expired <==> c in seen && Current(seen[c].at, clock, ttl);
      DeleteInfos(expired);
      zset := zset - expired;
    }

    /** One `HDEL` for each expired member. */
    method DeleteInfos(expired: set<ClientId>)
      modifies `hash
      ensures hash == old(hash) - expired
    {
      var left := expired;
      while left != {}
        invariant left <= expired && hash == old(hash) - (expired - left)
        decreases |left|
      {
        var c :| c in left;
        hash := hash - {c};
        left := left - {c};
      }
    }
  }

  /** A client that re-adds itself at least every `gap` milliseconds. */
  ghost predicate Refreshes(adds: seq<nat>, gap: nat) {
    && adds != []
    && forall i :: 0 < i < |adds| ==> adds[i - 1] <= adds[i] <= adds[i - 1] + gap
  }

  predicate CurrentAfter(at: nat, gap: nat, ttl: nat) {
    Current(at, at + gap, ttl)
  }

  /** The whole-second clock costs a refresh up to a second: an entry is sure to be
      current `gap` milliseconds later exactly when the gap is a second below the TTL. */
  lemma RefreshGapExactly(ttl: nat, gap: nat)
    ensures (forall at: nat :: CurrentAfter(at, gap, ttl)) <==> ttl >= 1 && gap <= 1000 * (ttl - 1)
  {
    if ttl == 0 {
      assert !CurrentAfter(0, gap, ttl);
    } else if gap > 1000 * (ttl - 1) {
      assert (999 + gap) / 1000 >= ttl;
      assert !CurrentAfter(999, gap, ttl);
    }
  }

  /** Such a client is never absent between its first add and one gap after its last. */
  lemma {:induction false} NeverAbsent(adds: seq<nat>, gap: nat, ttl: nat, now: nat) returns (i: nat)
    requires Refreshes(adds, gap) && ttl >= 1 && gap <= 1000 * (ttl - 1)
    requires adds[0] <= now <= adds[|adds| - 1] + gap
    ensures i < |adds| && adds[i] <= now && Current(adds[i], now, ttl)
    ensures i + 1 < |adds| ==> now < adds[i + 1]
  {
    if |adds| == 1 || now < adds[1] {
      i := 0;
    } else {
      i := NeverAbsent(adds[1..], gap, ttl, now);
      i := i + 1;
    }
  }
}
