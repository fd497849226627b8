/** Client commands, and the decisions of crates/centrifugo-core/src/client.rs that
    only compute: who gets in, and what the reply says. Tokens and proxies are outcomes
    handed in; namespace options are a function of the channel. */
module Commands {
  import opened Common
  import opened Types
  import opened HubModel
  import opened NodeModel
  import opened StreamModel
  import opened SeqGen
  import opened Session
  import opened Memory

  datatype ChannelOptions = ChannelOptions(
    presence: bool, joinLeave: bool, historyRecover: bool, historySize: nat, historyLifetime: nat, historyHidden: bool,
    anonymous: bool, serverSide: bool, proxySubscribe: bool, proxyPublish: bool, publish: bool, subscribeToPublish: bool)

  /** The node's settings; `options` is none for an unknown namespace. */
  datatype Settings = Settings(
    options: Channel -> Option<ChannelOptions>, isPrivate: Channel -> bool, personal: string -> Option<Channel>,
    insecure: bool, anonymous: bool, maxLength: nat, channelLimit: nat, connectionLimit: nat,
    hasSubscribeProxy: bool, hasPublishProxy: bool, hasRefreshProxy: bool, presencePing: nat)

  datatype TokenResult<+T> = Verified(claims: T) | TokenExpired | TokenInvalid

  datatype ProxyResult<+T> = ProxyOk(result: T) | ProxyError(code: u32) | ProxyDisconnect(disconnect: Disconnect) | ProxyFailed

  datatype Credentials = Credentials(user: string, info: Option<Bytes>, expireAt: int, channels: seq<Channel>)

  datatype SubscribeClaims = SubscribeClaims(client: ClientId, channel: Channel, info: Option<Bytes>, expireAt: int, expireTokenOnly: bool)

  datatype Renewal = Renewal(expired: bool, expireAt: int, info: Option<Bytes>)

  /** How a CONNECT identifies itself: a token, or else a configured proxy. */
  datatype Identity = ByToken(token: TokenResult<Credentials>) | ByProxy(proxy: ProxyResult<Option<Credentials>>) | Nothing

  datatype SubscribeRequest = SubscribeRequest(channel: Channel, recover: bool, position: WirePosition, epoch: Epoch,
                                               hasToken: bool, token: TokenResult<SubscribeClaims>, proxy: ProxyResult<Option<Bytes>>)

  /** A command from the client; `id` pairs it with its reply. `QueryCmd` stands for
      the commands that change nothing: PING, RPC, PRESENCE and PRESENCE_STATS. */
  datatype Command = Command(id: nat, body: CommandBody)

  datatype CommandBody =
    | ConnectCmd(identity: Identity, newId: ClientId)
    | SubscribeCmd(req: SubscribeRequest)
    | UnsubscribeCmd(channel: Channel)
    | PublishCmd(channel: Channel, data: Bytes, proxy: ProxyResult<Option<Bytes>>)
    | RefreshCmd(hasToken: bool, token: TokenResult<Credentials>)
    | SubRefreshCmd(channel: Channel, hasToken: bool, subToken: TokenResult<SubscribeClaims>)
    | HistoryCmd(channel: Channel)
    | MalformedCmd
    | SendCmd
    | QueryCmd(answer: ProxyResult<()>)

  /** What other tasks may do while a connection's reader waits. */
  datatype Elsewhere =
    | OtherConnects(handle: ClientHandle)
    | OtherSubscribes(other: ClientId, channel: Channel)
    | OtherUnsubscribes(other: ClientId, channel: Channel)
    | OtherPresent(other: ClientId, channel: Channel, info: ClientInfo)
    | OtherAbsent(other: ClientId, channel: Channel)
    | OtherCloses(other: ClientId)
    | PushRouted(push: Push)
    | HistoryWritten(channel: Channel, entry: Entry, size: nat, lifetime: nat, now: int, epoch: Epoch)
    | ControlArrives(cmd: ControlMessage)
    | WriterRuns(writer: nat, n: nat, gone: bool)
    | SlowCloseQueued

  /** `ours` are the ids a connection may be given; what others do is not about them. */
  ghost predicate Foreign(what: Elsewhere, ours: set<ClientId>) {
    match what
    case OtherConnects(handle) => handle.id !in ours
    case OtherSubscribes(other, _) => other !in ours
    case OtherUnsubscribes(other, _) => other !in ours
    case OtherPresent(other, _, _) => other !in ours
    case OtherAbsent(other, _) => other !in ours
    case OtherCloses(other) => other !in ours
    case PushRouted(push) => push.JoinPush? ==> push.info.client !in ours
    case _ => true
  }

  ghost predicate AllForeign(whats: seq<Elsewhere>, ours: set<ClientId>) {
    forall w :: w in whats ==> Foreign(w, ours)
  }

  /** What happens at each of the points where a handler waits; nothing past the end. */
  type Meanwhile = seq<seq<Elsewhere>>

  function AtPoint(meanwhile: Meanwhile, k: nat): seq<Elsewhere> {
    if k < |meanwhile| then meanwhile[k] else []
  }

  ghost predicate Undisturbing(meanwhile: Meanwhile, ours: set<ClientId>) {
    forall k :: 0 <= k < |meanwhile| ==> AllForeign(meanwhile[k], ours)
  }

  /** Replies to send, and whether to close the connection. */
  datatype Outcome = Outcome(replies: seq<Reply>, disconnect: Option<Disconnect>)

  function Replied(cmd: nat, result: ReplyResult): Outcome { Outcome([Reply(cmd, result)], None) }

  /** At most one reply, and to this command. */
  ghost predicate AnswersOnly(out: Outcome, cmd: nat) {
    |out.replies| <= 1 && forall r :: r in out.replies ==> r.cmd == cmd
  }

  function Silent(): (out: Outcome)
    ensures ReportedByAll(out.replies) == {} && out.replies == []
  {
    Outcome([], None)
  }

  /** An error reply; it reports no subscription. */
  function Failed(cmd: nat, code: u32): (out: Outcome)
    ensures ReportedByAll(out.replies) == {} && AnswersOnly(out, cmd)
  {
    ReportedByOne(Reply(cmd, ErrorReply(code)));
    Replied(cmd, ErrorReply(code))
  }

  function Closing(d: Disconnect): (out: Outcome)
    ensures ReportedByAll(out.replies) == {} && out.replies == []
  {
    Outcome([], Some(d))
  }

  const INTERNAL: u32 := 100
  const UNKNOWN_CHANNEL: u32 := 102
  const PERMISSION_DENIED: u32 := 103
  const ALREADY_SUBSCRIBED: u32 := 105
  const LIMIT_EXCEEDED: u32 := 106
  const BAD_REQUEST_ERROR: u32 := 107
  const NOT_AVAILABLE: u32 := 108
  const TOKEN_EXPIRED_ERROR: u32 := 109
  const EXPIRED_ERROR: u32 := 110

  const SLOW := Disconnect(3008, "slow", true)
  const INVALID_TOKEN := Disconnect(3002, "invalid token", false)
  const BAD_REQUEST := Disconnect(3003, "bad request", false)
  const SERVER_ERROR := Disconnect(3004, "internal server error", true)
  const EXPIRED := Disconnect(3005, "expired", true)
  const SUB_EXPIRED := Disconnect(3006, "subscription expired", true)
  const CONNECTION_LIMIT := Disconnect(3013, "connection limit", false)

  /** Seconds a client has to refresh after an expiry. */
  const CLOSE_DELAY := 25

  /** Past its expiry (0 is none) by more than the delay. */
  predicate Overdue(expireAt: int, now: int) { expireAt > 0 && now > expireAt + CLOSE_DELAY }

  /** Past its expiry by more than the 25 seconds a client has to refresh it. */
  ghost predicate Late(expireAt: int, now: int) { 0 < expireAt < now - 25 }

  // ---- user-limited channels ----

  /** What follows the last `#`, if there is one. */
  function AfterLastHash(channel: Channel): Option<string> {
    if channel == [] then None
    else match AfterLastHash(channel[1..])
      case Some(rest) => Some(rest)
      case None => if channel[0] == '#' then Some(channel[1..]) else None
  }

  function Split(s: string, sep: char): seq<string> {
    if s == [] then [""]
    else
      var rest := Split(s[1..], sep);
      if s[0] == sep then [""] + rest
      else if rest == [] then [[s[0]]]
      else [[s[0]] + rest[0]] + rest[1..]
  }

  /** Whether `user` may subscribe to `name#u1,u2`; other channels are open. */
  predicate UserAllowed(channel: Channel, user: string) {
    match AfterLastHash(channel)
    case None => true
    case Some(allowed) => user in Split(allowed, ',')
  }

  function JoinWith(users: seq<string>, sep: char): string
    requires users != []
  {
    if |users| == 1 then users[0] else users[0] + [sep] + JoinWith(users[1..], sep)
  }

  lemma {:induction false} SplitJoin(users: seq<string>, sep: char)
    requires users != [] && forall u :: u in users ==> sep !in u
    ensures Split(JoinWith(users, sep), sep) == users
    decreases |users|, |users[0]|
  {
    if users[0] == [] {
      if |users| > 1 {
        SplitJoin(users[1..], sep);
        assert JoinWith(users, sep)[1..] == JoinWith(users[1..], sep);
      }
    } else {
      var shorter := [users[0][1..]] + users[1..];
      assert forall u :: u in shorter ==> sep !in u by {
        assert forall u :: u in users[1..] ==> u in users;
        assert users[0] in users;
      }
      SplitJoin(shorter, sep);
      assert shorter[1..] == users[1..];
      assert JoinWith(users, sep)[1..] == JoinWith(shorter, sep);
      assert users[0][0] in users[0] && JoinWith(users, sep)[0] == users[0][0];
      assert [users[0][0]] + users[0][1..] == users[0];
    }
  }

  lemma {:induction false} LastHash(name: string, rest: string)
    requires '#' !in rest
    ensures AfterLastHash(name + "#" + rest) == Some(rest)
  {
    var s := name + "#" + rest;
    if name == [] {
      NoHash(rest);
      assert s[1..] == rest;
    } else {
      assert s[1..] == name[1..] + "#" + rest;
      LastHash(name[1..], rest);
    }
  }

  lemma {:induction false} NoHash(s: string)
    requires '#' !in s
    ensures AfterLastHash(s) == None
  {
    if s != [] { NoHash(s[1..]); }
  }

  /** A user-limited channel admits exactly the users it names. */
  lemma UserLimited(name: string, users: seq<string>, user: string)
    requires users != [] && forall u :: u in users ==> ',' !in u && '#' !in u
    ensures UserAllowed(name + "#" + JoinWith(users, ','), user) <==> user in users
  {
    NoHashInJoin(users);
    LastHash(name, JoinWith(users, ','));
    SplitJoin(users, ',');
  }

  /** The channel is `name#u1,u2,...` for these users. */
  ghost predicate LimitedTo(channel: Channel, name: string, users: seq<string>) {
    && users != [] && (forall u :: u in users ==> ',' !in u && '#' !in u)
    && channel == name + "#" + JoinWith(users, ',')
  }

  /** A channel with a `#` lists its users after the last one; others list nobody. */
  ghost predicate Named(channel: Channel, user: string) {
    '#' !in channel || exists name, users :: LimitedTo(channel, name, users) && user in users
  }

  /** Who is let into a channel, for every channel: anyone where there is no `#`, and the
      listed users where there is one. */
  lemma UserAllowedExactly(channel: Channel, user: string)
    ensures UserAllowed(channel, user) <==> Named(channel, user)
  {
    if '#' !in channel {
      NoHash(channel);
    } else {
      var name, rest := LastHashSplits(channel);
      JoinSplit(rest, ',');
      var users := Split(rest, ',');
      assert LimitedTo(channel, name, users);
      UserLimited(name, users, user);
      forall name', users' | LimitedTo(channel, name', users') ensures user in users' <==> user in users {
        UserLimited(name', users', user);
      }
    }
  }

  lemma {:induction false} LastHashSplits(channel: Channel) returns (name: string, rest: string)
    requires '#' in channel
    ensures channel == name + "#" + rest && '#' !in rest
  {
    if '#' in channel[1..] {
      name, rest := LastHashSplits(channel[1..]);
      name := [channel[0]] + name;
      assert channel == [channel[0]] + channel[1..];
    } else {
      name, rest := "", channel[1..];
      assert channel == [channel[0]] + channel[1..];
    }
  }

  lemma {:induction false} JoinSplit(s: string, sep: char)
    ensures Split(s, sep) != [] && JoinWith(Split(s, sep), sep) == s
    ensures forall u :: u in Split(s, sep) ==> sep !in u && forall c :: c in u ==> c in s
  {
    if s != [] {
      var rest := Split(s[1..], sep);
      JoinSplit(s[1..], sep);
      assert s == [s[0]] + s[1..];
      if s[0] == sep {
        assert ([""] + rest)[1..] == rest;
      } else {
        var users := [[s[0]] + rest[0]] + rest[1..];
        assert users[1..] == rest[1..] && rest == [rest[0]] + rest[1..];
        forall u | u in users ensures sep !in u && forall c :: c in u ==> c in s {
          if u != users[0] { assert u in rest; } else { assert rest[0] in rest; }
        }
      }
    }
  }

  lemma {:induction false} NoHashInJoin(users: seq<string>)
    requires users != [] && forall u :: u in users ==> '#' !in u
    ensures '#' !in JoinWith(users, ',')
  {
    if |users| > 1 { NoHashInJoin(users[1..]); }
  }

  // ---- decisions ----

  datatype Admission = Refused(outcome: Outcome) | Granted(state: SubState)

  /** Whether a SUBSCRIBE is let in, and with what state. */
  function Admit(s: Settings, cmd: nat, req: SubscribeRequest, id: ClientId, user: string, subs: Subscriptions): Admission {
    if req.channel == [] then Refused(Closing(BAD_REQUEST))
    else if s.maxLength > 0 && |req.channel| > s.maxLength then Refused(Failed(cmd, LIMIT_EXCEEDED))
    else if s.channelLimit > 0 && |subs| >= s.channelLimit then Refused(Failed(cmd, LIMIT_EXCEEDED))
    else if req.channel in subs then Refused(Failed(cmd, ALREADY_SUBSCRIBED))
    else match s.options(req.channel)
      case None => Refused(Failed(cmd, UNKNOWN_CHANNEL))
      case Some(o) =>
        if o.serverSide || (!o.anonymous && user == "" && !s.insecure) || !UserAllowed(req.channel, user)
        then Refused(Failed(cmd, PERMISSION_DENIED))
        else if s.isPrivate(req.channel) then AdmitByToken(cmd, req, id, o)
        else if o.proxySubscribe && '#' !in req.channel then
          if s.hasSubscribeProxy then AdmitByProxy(cmd, req, o) else Refused(Failed(cmd, NOT_AVAILABLE))
        else Granted(StateOf(o, None, 0, false))
  }

  function StateOf(o: ChannelOptions, chanInfo: Option<Bytes>, expireAt: int, serverSide: bool): SubState {
    SubState(expireAt, o.historyRecover, o.presence, o.joinLeave, chanInfo, serverSide)
  }

  function AdmitByToken(cmd: nat, req: SubscribeRequest, id: ClientId, o: ChannelOptions): Admission {
    if !req.hasToken then Refused(Failed(cmd, PERMISSION_DENIED))
    else match req.token
      case TokenExpired => Refused(Failed(cmd, TOKEN_EXPIRED_ERROR))
      case TokenInvalid => Refused(Failed(cmd, PERMISSION_DENIED))
      case Verified(t) =>
        if t.client != id || t.channel != req.channel then Refused(Failed(cmd, PERMISSION_DENIED))
        else Granted(StateOf(o, t.info, if t.expireTokenOnly then 0 else t.expireAt, false))
  }

  function AdmitByProxy(cmd: nat, req: SubscribeRequest, o: ChannelOptions): Admission {
    match req.proxy
    case ProxyOk(info) => Granted(StateOf(o, info, 0, false))
    case ProxyError(code) => Refused(Failed(cmd, code))
    case ProxyDisconnect(d) => Refused(Closing(d))
    case ProxyFailed => Refused(Failed(cmd, INTERNAL))
  }

  /** A request that names a new channel within the limits. */
  ghost predicate Orderly(s: Settings, req: SubscribeRequest, subs: Subscriptions) {
    && req.channel != [] && req.channel !in subs
    && (s.maxLength == 0 || |req.channel| <= s.maxLength)
    && (s.channelLimit == 0 || |subs| < s.channelLimit)
  }

  /** A channel clients may subscribe to themselves, and this user among them. */
  ghost predicate OpenTo(s: Settings, channel: Channel, user: string) {
    && Known(s, channel) && !s.options(channel).value.serverSide
    && (user != "" || s.insecure || s.options(channel).value.anonymous)
    && Named(channel, user)
  }

  /** A private channel takes a token, made for this client and channel. */
  ghost predicate TokenFits(req: SubscribeRequest, id: ClientId) {
    req.hasToken && req.token.Verified? && req.token.claims.client == id && req.token.claims.channel == req.channel
  }

  /** Any other may ask the subscribe proxy, unless it lists its users. */
  ghost predicate AsksProxy(s: Settings, channel: Channel)
    requires Known(s, channel)
  {
    !s.isPrivate(channel) && s.options(channel).value.proxySubscribe && '#' !in channel
  }

  /** Who must get in, and nobody else. */
  ghost predicate Entitled(s: Settings, req: SubscribeRequest, id: ClientId, user: string, subs: Subscriptions) {
    && Orderly(s, req, subs) && OpenTo(s, req.channel, user)
    && (s.isPrivate(req.channel) ==> TokenFits(req, id))
    && (AsksProxy(s, req.channel) ==> s.hasSubscribeProxy && req.proxy.ProxyOk?)
  }

  /** With what state: the channel's options, and what the token or the proxy says. */
  ghost predicate StateGranted(state: SubState, s: Settings, req: SubscribeRequest)
    requires Known(s, req.channel)
  {
    var o := s.options(req.channel).value;
    && state.presence == o.presence && state.joinLeave == o.joinLeave && state.recoverable == o.historyRecover && !state.serverSide
    && (s.isPrivate(req.channel) && req.token.Verified? ==>
          && state.chanInfo == req.token.claims.info
          && state.expireAt == (if req.token.claims.expireTokenOnly then 0 else req.token.claims.expireAt))
    && (!s.isPrivate(req.channel) ==> state.expireAt == 0)
    && (AsksProxy(s, req.channel) && req.proxy.ProxyOk? ==> state.chanInfo == req.proxy.result)
    && (!s.isPrivate(req.channel) && !AsksProxy(s, req.channel) ==> state.chanInfo == None)
  }

  /** How everyone else is refused, by the first thing that is wrong. */
  ghost predicate RefusedWith(out: Outcome, s: Settings, cmd: nat, req: SubscribeRequest, id: ClientId, user: string, subs: Subscriptions) {
    var tooMuch := (s.maxLength > 0 && |req.channel| > s.maxLength) || (s.channelLimit > 0 && |subs| >= s.channelLimit);
    && (req.channel == [] ==> out == Closing(BAD_REQUEST))
    && (req.channel != [] && tooMuch ==> out == Failed(cmd, 106))
    && (req.channel != [] && !tooMuch && req.channel in subs ==> out == Failed(cmd, 105))
    && (Orderly(s, req, subs) && !Known(s, req.channel) ==> out == Failed(cmd, 102))
    && (Orderly(s, req, subs) && Known(s, req.channel) && !OpenTo(s, req.channel, user) ==> out == Failed(cmd, 103))
    && (Orderly(s, req, subs) && OpenTo(s, req.channel, user) && s.isPrivate(req.channel) ==>
          out == Failed(cmd, if req.hasToken && req.token.TokenExpired? then 109 else 103))
    && (Orderly(s, req, subs) && OpenTo(s, req.channel, user) && AsksProxy(s, req.channel) ==>
          if !s.hasSubscribeProxy then out == Failed(cmd, 108)
          else match req.proxy
            case ProxyOk(_) => true
            case ProxyError(code) => out == Failed(cmd, code)
            case ProxyDisconnect(d) => out == Closing(d)
            case ProxyFailed => out == Failed(cmd, 100))
  }

  /** A SUBSCRIBE is let in exactly when it is entitled to be. */
  lemma AdmitExactly(s: Settings, cmd: nat, req: SubscribeRequest, id: ClientId, user: string, subs: Subscriptions)
    ensures match Admit(s, cmd, req, id, user, subs)
            case Granted(state) => Entitled(s, req, id, user, subs) && StateGranted(state, s, req)
            case Refused(out) =>
              && !Entitled(s, req, id, user, subs) && RefusedWith(out, s, cmd, req, id, user, subs)
              && ReportedByAll(out.replies) == {} && AnswersOnly(out, cmd)
  {
    hide UserAllowed, Named, ReportedByAll, Failed, Closing;
    UserAllowedExactly(req.channel, user);
  }

  lemma OpenIsNew(s: Settings, req: SubscribeRequest, id: ClientId, user: string, subs: Subscriptions)
    ensures Entitled(s, req, id, user, subs) ==> req.channel !in subs && Known(s, req.channel)
  {
  }

  /** The data to publish, possibly rewritten by the publish proxy, or the refusal. */
  function MayPublish(s: Settings, cmd: nat, channel: Channel, data: Bytes,
                      proxy: ProxyResult<Option<Bytes>>, subscribed: bool): Result<Bytes, Outcome>
  {
    if data == [] || channel == [] then Err(Closing(BAD_REQUEST))
    else if !Known(s, channel) then Err(Failed(cmd, UNKNOWN_CHANNEL))
    else
      var o := s.options(channel).value;
      if (!o.publish && !s.insecure) || (o.subscribeToPublish && !subscribed) then Err(Failed(cmd, PERMISSION_DENIED))
      else if !o.proxyPublish then Ok(data)
      else if !s.hasPublishProxy then Err(Failed(cmd, NOT_AVAILABLE))
      else match proxy
        case ProxyOk(Some(d)) => Ok(d)
        case ProxyOk(None) => Ok(data)
        case ProxyError(code) => Err(Failed(cmd, code))
        case ProxyDisconnect(d) => Err(Closing(d))
        case ProxyFailed => Err(Failed(cmd, INTERNAL))
  }

  /** Who may publish. */
  ghost predicate Publishable(s: Settings, channel: Channel, data: Bytes, proxy: ProxyResult<Option<Bytes>>, subscribed: bool) {
    && channel != [] && data != [] && Known(s, channel)
    && var o := s.options(channel).value;
       && (o.publish || s.insecure)
       && (o.subscribeToPublish ==> subscribed)
       && (o.proxyPublish ==> s.hasPublishProxy && proxy.ProxyOk?)
  }

  /** What is published: the data, unless the publish proxy put other data in its place. */
  ghost function Payload(s: Settings, channel: Channel, data: Bytes, proxy: ProxyResult<Option<Bytes>>): Bytes {
    if Known(s, channel) && s.options(channel).value.proxyPublish && proxy.ProxyOk? && proxy.result.Some? then proxy.result.value
    else data
  }

  ghost predicate PublishRefusedWith(out: Outcome, s: Settings, cmd: nat, channel: Channel, data: Bytes,
                                     proxy: ProxyResult<Option<Bytes>>, subscribed: bool)
  {
    && (channel == [] || data == [] ==> out == Closing(BAD_REQUEST))
    && (channel != [] && data != [] && !Known(s, channel) ==> out == Failed(cmd, 102))
    && (channel != [] && data != [] && Known(s, channel) ==>
          var o := s.options(channel).value;
          if !(o.publish || s.insecure) || (o.subscribeToPublish && !subscribed) then out == Failed(cmd, 103)
          else if !s.hasPublishProxy then out == Failed(cmd, 108)
          else match proxy
            case ProxyOk(_) => true
            case ProxyError(code) => out == Failed(cmd, code)
            case ProxyDisconnect(d) => out == Closing(d)
            case ProxyFailed => out == Failed(cmd, 100))
  }

  /** A PUBLISH goes through exactly when it may. */
  lemma MayPublishExactly(s: Settings, cmd: nat, channel: Channel, data: Bytes, proxy: ProxyResult<Option<Bytes>>, subscribed: bool)
    ensures match MayPublish(s, cmd, channel, data, proxy, subscribed)
            case Ok(payload) => Publishable(s, channel, data, proxy, subscribed) && payload == Payload(s, channel, data, proxy)
            case Err(out) =>
              && !Publishable(s, channel, data, proxy, subscribed) && PublishRefusedWith(out, s, cmd, channel, data, proxy, subscribed)
              && ReportedByAll(out.replies) == {} && AnswersOnly(out, cmd)
  {
    hide ReportedByAll, Failed, Closing;
  }

  lemma MayPublishKnown(s: Settings, channel: Channel, data: Bytes, proxy: ProxyResult<Option<Bytes>>, subscribed: bool)
    ensures Publishable(s, channel, data, proxy, subscribed) ==> Known(s, channel)
  {
  }

  function HistoryEnabled(o: ChannelOptions): bool { o.historySize > 0 && o.historyLifetime > 0 }

  /** Why a HISTORY is refused, if it is. */
  function HistoryRefusal(s: Settings, cmd: nat, channel: Channel, subscribed: bool): Option<Outcome> {
    if !Known(s, channel) then Some(Failed(cmd, UNKNOWN_CHANNEL))
    else
      var o := s.options(channel).value;
      if !HistoryEnabled(o) || o.historyHidden then Some(Failed(cmd, NOT_AVAILABLE))
      else if !subscribed then Some(Failed(cmd, PERMISSION_DENIED))
      else None
  }

  /** HISTORY is for subscribers of a channel that keeps history and shows it. */
  lemma HistoryRefusedExactly(s: Settings, cmd: nat, channel: Channel, subscribed: bool)
    ensures var r := HistoryRefusal(s, cmd, channel, subscribed);
            && (r == None <==>
                  && Known(s, channel) && subscribed
                  && s.options(channel).value.historySize > 0 && s.options(channel).value.historyLifetime > 0
                  && !s.options(channel).value.historyHidden)
            && (r.Some? ==> ReportedByAll(r.value.replies) == {} && AnswersOnly(r.value, cmd))
            && (!Known(s, channel) ==> r == Some(Failed(cmd, 102)))
            && (r.Some? && Known(s, channel) ==>
                  r.value == Failed(cmd, if HistoryEnabled(s.options(channel).value) && !s.options(channel).value.historyHidden then 103 else 108))
  {
    hide ReportedByAll, Failed;
  }

  function WithSeqGen(p: Publication): Publication {
    var (s, g) := Unpack(p.offset % TWO_64);
    p.(sq := s, gen := g)
  }

  /** Adds (seq, gen) to every publication; unlike in a recovery, the offsets and the
      order stay. */
  method AddSeqGen(answer: seq<Publication>) returns (pubs: seq<Publication>)
    ensures |pubs| == |answer| && forall i :: 0 <= i < |pubs| ==> pubs[i] == WithSeqGen(answer[i])
  {
    pubs := answer;
    var i := 0;
    while i < |pubs|
      invariant i <= |pubs| == |answer|
      invariant forall j :: 0 <= j < i ==> pubs[j] == WithSeqGen(answer[j])
      invariant forall j :: i <= j < |pubs| ==> pubs[j] == answer[j]
    {
      pubs := pubs[i := WithSeqGen(pubs[i])];
      i := i + 1;
    }
  }

  /** What a HISTORY reply says of the stream: all it has left, in order and with offsets,
      and in seq/gen mode the halves of each offset too. */
  ghost predicate Shows(pubs: seq<Publication>, s: Stream, useSeqGen: bool) {
    && |pubs| == |s.Retained()|
    && forall i :: 0 <= i < |pubs| ==> ShowsOne(pubs[i], s.Retained()[i], useSeqGen)
  }

  lemma ShownWithSeqGen(pubs: seq<Publication>, s: Stream, useSeqGen: bool)
    requires |pubs| == |s.Retained()|
    requires forall i :: 0 <= i < |pubs| ==> pubs[i] == if useSeqGen then WithSeqGen(s.Retained()[i]) else s.Retained()[i]
    ensures Shows(pubs, s, useSeqGen)
  {
    forall i | 0 <= i < |pubs| ensures ShowsOne(pubs[i], s.Retained()[i], useSeqGen) {
      SeqIsLow(s.Retained()[i].offset % TWO_64);
    }
  }

  ghost predicate ShowsOne(shown: Publication, p: Publication, useSeqGen: bool) {
    && shown.data == p.data && shown.info == p.info && shown.offset == p.offset
    && (useSeqGen && p.offset < TWO_64 ==> shown.gen * TWO_32 + shown.sq == p.offset)
    && (!useSeqGen ==> shown == p)
  }

  /** Who a CONNECT is, or how it fails. */
  function Resolve(s: Settings, cmd: nat, identity: Identity): Result<Credentials, Outcome> {
    match identity
    case ByToken(Verified(c)) => Ok(if s.insecure then c.(expireAt := 0) else c)
    case ByToken(TokenExpired) => Err(Failed(cmd, TOKEN_EXPIRED_ERROR))
    case ByToken(TokenInvalid) => Err(Closing(INVALID_TOKEN))
    case ByProxy(ProxyOk(Some(c))) => Ok(c)
    case ByProxy(ProxyError(code)) => Err(Failed(cmd, code))
    case ByProxy(ProxyDisconnect(d)) => Err(Closing(d))
    case ByProxy(ProxyFailed) => Err(Failed(cmd, INTERNAL))
    case ByProxy(ProxyOk(None)) => NoIdentity(s)
    case Nothing => NoIdentity(s)
  }

  /** Whom a CONNECT is taken for: a verified token's or the proxy's credentials, or else
      nobody in particular, where the server lets nobody in. Insecure mode only drops a
      token's expiry. */
  lemma ResolveExactly(s: Settings, cmd: nat, identity: Identity)
    ensures var r := Resolve(s, cmd, identity);
            && (identity.ByToken? && identity.token.Verified? ==>
                  r.Ok? && r.value == identity.token.claims.(expireAt := if s.insecure then 0 else identity.token.claims.expireAt))
            && (identity == ByToken(TokenExpired) ==> r == Err(Failed(cmd, 109)))
            && (identity == ByToken(TokenInvalid) ==> r == Err(Closing(INVALID_TOKEN)))
            && (identity.ByProxy? && !identity.proxy.ProxyOk? ==> r == Err(ProxyRefusal(cmd, identity.proxy)))
            && (identity.ByProxy? && identity.proxy.ProxyOk? && identity.proxy.result.Some? ==> r == Ok(identity.proxy.result.value))
            && (identity == Nothing || identity == ByProxy(ProxyOk(None)) ==>
                  r == if s.anonymous || s.insecure then Ok(Credentials("", None, 0, [])) else Err(Closing(BAD_REQUEST)))
            && (r.Err? ==> ReportedByAll(r.error.replies) == {} && AnswersOnly(r.error, cmd))
  {
    hide ReportedByAll, Failed, Closing;
  }

  ghost function ProxyRefusal<T>(cmd: nat, proxy: ProxyResult<T>): Outcome {
    match proxy
    case ProxyError(code) => Failed(cmd, code)
    case ProxyDisconnect(d) => Closing(d)
    case _ => Failed(cmd, 100)
  }

  function NoIdentity(s: Settings): Result<Credentials, Outcome> {
    if s.anonymous || s.insecure then Ok(Credentials("", None, 0, [])) else Err(Closing(BAD_REQUEST))
  }

  /** The channels a CONNECT subscribes to: the credentials', and the personal one. */
  function ConnectChannels(s: Settings, c: Credentials): seq<Channel> {
    match s.personal(c.user)
    case Some(own) => if own in c.channels then c.channels else c.channels + [own]
    case None => c.channels
  }

  /** The credentials' channels in order, and the personal one once if it is not among
      them. */
  lemma ConnectChannelsExactly(s: Settings, c: Credentials)
    ensures var channels, own := ConnectChannels(s, c), s.personal(c.user);
            && c.channels <= channels
            && (own == None ==> channels == c.channels)
            && (own.Some? ==> own.value in channels && (own.value in c.channels ==> channels == c.channels))
            && (own.Some? && own.value !in c.channels ==> |channels| == |c.channels| + 1)
            && forall ch :: ch in channels ==> ch in c.channels || own == Some(ch)
  {
  }

  predicate Known(s: Settings, channel: Channel) { s.options(channel).Some? }

  predicate AllKnown(s: Settings, channels: seq<Channel>) { forall ch :: ch in channels ==> Known(s, ch) }

  function ServerSideState(s: Settings, channel: Channel): SubState
    requires Known(s, channel)
  {
    StateOf(s.options(channel).value, None, 0, true)
  }

  /** A server-side subscription: the channel's options, no expiry, no info of its own. */
  ghost predicate GrantedByServer(state: SubState, s: Settings, channel: Channel)
    requires Known(s, channel)
  {
    var o := s.options(channel).value;
    state == SubState(0, o.historyRecover, o.presence, o.joinLeave, None, true)
  }

  function ServerSide(s: Settings, channels: seq<Channel>): Subscriptions
    requires AllKnown(s, channels)
  {
    map ch | ch in channels :: ServerSideState(s, ch)
  }

  lemma ServerSideExactly(s: Settings, channels: seq<Channel>)
    requires AllKnown(s, channels)
    ensures var subs := ServerSide(s, channels);
            && (forall ch :: ch in subs <==> ch in channels)
            && (forall ch :: ch in subs ==> GrantedByServer(subs[ch], s, ch))
  {
  }

  predicate Announces(s: Settings, channel: Channel) {
    Known(s, channel) && s.options(channel).value.joinLeave
  }

  /** The announcing channels of a list beyond their first mention. */
  function Repeats(s: Settings, channels: seq<Channel>): multiset<Channel> {
    if channels == [] then multiset{}
    else
      var n := |channels| - 1;
      Repeats(s, channels[..n]) + Once(channels[n], Announces(s, channels[n]) && channels[n] in channels[..n])
  }

  /** What a CONNECT reply says of a channel: where its stream stands now, if it can be
      recovered. */
  ghost predicate ReportsAtConnect(s: Settings, result: SubscribeResult, channel: Channel, streams: map<Channel, Stream>, useSeqGen: bool)
    requires Known(s, channel)
  {
    if s.options(channel).value.historyRecover then channel in streams && result == BaselineOf(streams[channel], useSeqGen)
    else result == NOT_RECOVERABLE
  }

  ghost predicate ReportsAll(s: Settings, subs: map<Channel, SubscribeResult>, streams: map<Channel, Stream>, useSeqGen: bool)
    requires forall ch :: ch in subs ==> Known(s, ch)
  {
    forall ch :: ch in subs ==> ReportsAtConnect(s, subs[ch], ch, streams, useSeqGen)
  }

  /** The reply of a successful CONNECT: its channels, each with its position. */
  ghost predicate ConnectedBy(out: Outcome, cmd: nat, s: Settings, channels: seq<Channel>, streams: map<Channel, Stream>, useSeqGen: bool)
    requires AllKnown(s, channels)
  {
    exists subs, made ::
      && out == Replied(cmd, ConnectReply(subs, made))
      && (forall ch :: ch in subs <==> ch in channels) && ReportsAll(s, subs, streams, useSeqGen)
  }

  /** One more result in the reply's map; reading one channel's position moves no other. */
  lemma OneMoreReport(s: Settings, subs: map<Channel, SubscribeResult>, channel: Channel, result: SubscribeResult,
                      before: map<Channel, Stream>, streams: map<Channel, Stream>, useSeqGen: bool)
    requires (forall ch :: ch in subs ==> Known(s, ch)) && Known(s, channel)
    requires ReportsAll(s, subs, before, useSeqGen) && ReportsAtConnect(s, result, channel, streams, useSeqGen)
    requires forall ch :: ch in before && ch != channel ==> ch in streams && streams[ch] == before[ch]
    ensures ReportsAll(s, subs[channel := result], streams, useSeqGen)
  {
  }

  lemma OneMoreChannel(s: Settings, made: seq<Channel>, channel: Channel)
    requires AllKnown(s, made) && Known(s, channel)
    ensures var before := ServerSide(s, made);
            && AllKnown(s, made + [channel])
            && ServerSide(s, made + [channel]) == before[channel := ServerSideState(s, channel)]
            && (channel in before ==> before[channel] == ServerSideState(s, channel))
            && Repeats(s, made + [channel]) == Repeats(s, made) + Once(channel, Announces(s, channel) && channel in before)
  {
    assert (made + [channel])[..|made|] == made;
  }

  lemma NothingConnected(s: Settings)
    ensures ServerSide(s, []) == map[] && Repeats(s, []) == multiset{}
  {
  }

  /** A CONNECT has no surplus Join exactly when no announcing channel is repeated. */
  lemma {:induction false} RepeatsNone(s: Settings, channels: seq<Channel>)
    ensures Repeats(s, channels) == multiset{} <==> !RepeatsSome(s, channels)
  {
    if channels != [] {
      hide Announces, Once;
      var n := |channels| - 1;
      RepeatsNone(s, channels[..n]);
      RepeatsSnoc(s, channels[..n], channels[n]);
      assert channels == channels[..n] + [channels[n]];
      OnceIsNone(channels[n], Announces(s, channels[n]) && channels[n] in channels[..n]);
    }
  }

  ghost predicate RepeatsSome(s: Settings, channels: seq<Channel>) {
    exists i, j :: 0 <= i < j < |channels| && channels[i] == channels[j] && Announces(s, channels[i])
  }

  lemma RepeatsSnoc(s: Settings, front: seq<Channel>, last: Channel)
    ensures RepeatsSome(s, front + [last]) <==> RepeatsSome(s, front) || (Announces(s, last) && last in front)
  {
    hide Announces;
    var all := front + [last];
    if RepeatsSome(s, front) {
      var i, j :| 0 <= i < j < |front| && front[i] == front[j] && Announces(s, front[i]);
      assert all[i] == all[j];
    }
    if Announces(s, last) && last in front {
      var i :| 0 <= i < |front| && front[i] == last;
      assert all[i] == all[|front|];
    }
  }

  lemma OnceIsNone(channel: Channel, announces: bool)
    ensures forall m: multiset<Channel> :: m + Once(channel, announces) == multiset{} <==> m == multiset{} && !announces
  {
    forall m: multiset<Channel> ensures m + Once(channel, announces) == multiset{} <==> m == multiset{} && !announces {
      assert |m + Once(channel, announces)| == |m| + if announces then 1 else 0;
    }
  }

  /** What a SUBSCRIBE reply says about the channel's stream. */
  ghost predicate Answers(result: SubscribeResult, s: Stream, req: SubscribeRequest, useSeqGen: bool) {
    var asked := RequestedOffset(req.position);
    && result.recoverable && result.epoch == s.epoch
    && RequestedOffset(result.position) == (if useSeqGen then |s.log| - |s.log| / TWO_32 else |s.log|)
    && (!req.recover ==> !result.recovered && result.publications == [])
    && (req.recover ==> InOrder(result.publications, useSeqGen) == s.Since(asked))
    && (req.recover ==> (result.recovered <==> req.epoch == s.epoch && s.dropped <= asked <= |s.log|))
    && (result.recovered ==> InOrder(result.publications, useSeqGen) == s.After(asked))
  }

  /** The result a lone SUBSCRIBE reply carries. */
  function Reported(out: Outcome): SubscribeResult {
    if |out.replies| == 1 && out.replies[0].result.SubscribeReply? then out.replies[0].result.result else NOT_RECOVERABLE
  }

  lemma AnswersRecovered(result: SubscribeResult, s: Stream, req: SubscribeRequest, useSeqGen: bool, answer: seq<Publication>)
    requires s.Valid() && |s.log| < TWO_64 && req.recover && answer == s.Since(RequestedOffset(req.position))
    requires result.recoverable && result.epoch == s.epoch
    requires result.recovered == Recovered(answer, s.Position(), RequestedOffset(req.position), req.epoch)
    requires RequestedOffset(result.position) == if useSeqGen then |s.log| - |s.log| / TWO_32 else |s.log|
    requires InRange(answer) ==> InOrder(result.publications, useSeqGen) == answer
    ensures Answers(result, s, req, useSeqGen)
  {
    hide InOrder, Recovered, InRange, Stream.Since;
    RecoveryIsExact(s, RequestedOffset(req.position), req.epoch);
    SinceInRange(s, RequestedOffset(req.position));
  }

  /** Where the stream stands, for a client that does not recover. */
  function BaselineOf(s: Stream, useSeqGen: bool): SubscribeResult {
    SubscribeResult(true, false, s.epoch, EncodePosition(|s.log| % TWO_64, useSeqGen), [])
  }

  lemma AnswersBaseline(s: Stream, req: SubscribeRequest, useSeqGen: bool)
    requires |s.log| < TWO_64 && !req.recover
    ensures Answers(BaselineOf(s, useSeqGen), s, req, useSeqGen)
  {
    EchoNeverSkips(|s.log|, useSeqGen);
  }

  lemma SinceInRange(s: Stream, offset: nat)
    requires |s.log| < TWO_64
    ensures InRange(s.Since(offset))
  {
    AfterAt(s, if offset < s.dropped then s.dropped else offset);
  }

  /** The channels an authenticated client is in after a command. */
  ghost function Subscribed(s: Settings, cmd: Command, id: ClientId, user: string, subs: Subscriptions): set<Channel> {
    match cmd.body
    case SubscribeCmd(req) => if Entitled(s, req, id, user, subs) then subs.Keys + {req.channel} else subs.Keys
    case UnsubscribeCmd(channel) => if channel == [] then subs.Keys else subs.Keys - {channel}
    case _ => subs.Keys
  }

  /** The surplus Joins a CONNECT with these credentials leads to. */
  function Extra(s: Settings, cmd: Command): multiset<Channel> {
    if cmd.body.ConnectCmd? && Resolve(s, cmd.id, cmd.body.identity).Ok?
    then Repeats(s, ConnectChannels(s, Resolve(s, cmd.id, cmd.body.identity).value))
    else multiset{}
  }

  /** The reply to a command that only asks. */
  function Answered(cmd: nat, answer: ProxyResult<()>): (out: Outcome)
    ensures ReportedByAll(out.replies) == {} && AnswersOnly(out, cmd)
  {
    match answer
    case ProxyOk(_) => ReportedByOne(Reply(cmd, OkReply)); Replied(cmd, OkReply)
    case ProxyError(code) => Failed(cmd, code)
    case ProxyDisconnect(d) => Closing(d)
    case ProxyFailed => Failed(cmd, INTERNAL)
  }

  ghost function Connections(conns: Conns, user: string): set<ClientId> {
    set id | id in conns && conns[id].user == user
  }
}
