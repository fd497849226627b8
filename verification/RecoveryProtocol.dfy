/** Publishing and (re)subscribing as they interleave, on one channel and as seen by
    one connection, with any number of publications in flight.

    Every lock-protected section of crates/centrifugo-core is one atomic step. A
    publish is three: append under the history lock, pick the channel's registered
    subscribers, offer the frame to each picked queue. A SUBSCRIBE is two: enter the
    hub, read the history. The stream may lose its publications or vanish between any
    two steps. The steps fit both engines; with Redis, the append also publishes. */
module RecoveryProtocol {
  import opened Common
  import opened Types
  import opened SeqGen
  import opened StreamModel

  /** Where a publication went in the stream. */
  datatype Place = Place(epoch: Epoch, offset: nat)

  /** Appended but not yet routed, or routed to a snapshot of the subscribers that
      does or does not include this connection. */
  datatype Phase = Appended | Picked(included: bool)

  datatype Request = Plain | Recover(offset: u64, epoch: Epoch)

  /** The connection's subscription. `from` counts what had been offered when it
      entered the hub; `mark` counts what had been published when it read the
      history; `answer` and `top` are what it read. */
  datatype Sub =
    | Idle
    | Entered(from: nat)
    | Active(from: nat, mark: nat, request: Request, answer: seq<Publication>, top: StreamPosition)

  /** `published` lists every append in order, so a publication is known by its index
      in it; `logs` is everything ever appended, per epoch. */
  datatype State = State(
    stream: Option<Stream>, logs: map<Epoch, seq<Entry>>, published: seq<Place>,
    flights: map<nat, Phase>, offered: seq<nat>,
    registered: bool, inHub: bool, sub: Sub)

  const INIT := State(None, map[], [], map[], [], true, false, Idle)

  datatype Step =
    | Publish(entry: Entry, size: nat, newEpoch: Epoch)
    | Pick(n: nat)
    | Offer(n: nat)
    | OfferTooSlow(n: nat)
    | Skip(n: nat)
    | DroppedElsewhere
    | PublicationsExpire
    | StreamVanishes
    | SomeoneReads(newEpoch: Epoch)
    | EnterHub
    | ReadHistory(request: Request, newEpoch: Epoch)
    | Leave

  /** A new stream's epoch was never used before. */
  predicate FreshEpoch(s: State, epoch: Epoch) {
    s.stream.Some? || epoch !in s.logs
  }

  predicate Enabled(s: State, step: Step) {
    match step
    case Publish(_, _, newEpoch) => FreshEpoch(s, newEpoch)
    case Pick(n) => n in s.flights && s.flights[n] == Appended
    case Offer(n) => n in s.flights && s.flights[n] == Picked(true)
    case OfferTooSlow(n) => n in s.flights && s.flights[n] == Picked(true)
    case Skip(n) => n in s.flights && s.flights[n] == Picked(false)
    case DroppedElsewhere => true
    case PublicationsExpire => true
    case StreamVanishes => true
    case SomeoneReads(newEpoch) => FreshEpoch(s, newEpoch)
    case EnterHub => s.sub.Idle?
    case ReadHistory(_, newEpoch) => s.sub.Entered? && FreshEpoch(s, newEpoch)
    case Leave => s.sub.Active?
  }

  /** The state with a stream in it, as any access to the history leaves it. */
  function Touch(s: State, newEpoch: Epoch): State {
    if s.stream.Some? then s
    else s.(stream := Some(Fresh(newEpoch)), logs := s.logs[newEpoch := []])
  }

  function AppendTo(s: State, entry: Entry, size: nat): State
    requires s.stream.Some?
  {
    var stream := StreamModel.Append(s.stream.value, entry, size);
    s.(stream := Some(stream), logs := s.logs[stream.epoch := stream.log],
       published := s.published + [Place(stream.epoch, |stream.log|)],
       flights := s.flights[|s.published| := Appended])
  }

  function ReadFor(s: State, request: Request): State
    requires s.stream.Some? && s.sub.Entered?
  {
    var stream := s.stream.value;
    var answer := if request.Recover? then stream.Since(request.offset) else stream.Retained();
    s.(sub := Active(s.sub.from, |s.published|, request, answer, stream.Position()))
  }

  function Apply(s: State, step: Step): State
    requires Enabled(s, step)
  {
    match step
    case Publish(entry, size, newEpoch) => AppendTo(Touch(s, newEpoch), entry, size)
    case Pick(n) => s.(flights := s.flights[n := Picked(s.inHub && s.registered)])
    case Offer(n) => s.(flights := s.flights - {n}, offered := s.offered + [n])
    case OfferTooSlow(n) => s.(flights := s.flights - {n}, registered := false, inHub := false)
    case Skip(n) => s.(flights := s.flights - {n})
    case DroppedElsewhere => s.(registered := false, inHub := false)
    case PublicationsExpire => s.(stream := if s.stream.Some? then Some(DropAll(s.stream.value)) else None)
    case StreamVanishes => s.(stream := None)
    case SomeoneReads(newEpoch) => Touch(s, newEpoch)
    case EnterHub => s.(inHub := true, sub := Entered(|s.offered|))
    case ReadHistory(request, newEpoch) => ReadFor(Touch(s, newEpoch), request)
    case Leave => s.(inHub := false, sub := Idle)
  }

  /** The state after a run of steps, if each was possible. */
  function Run(steps: seq<Step>): Option<State> {
    if steps == [] then Some(INIT)
    else match Run(steps[..|steps| - 1])
      case None => None
      case Some(s) => if Enabled(s, steps[|steps| - 1]) then Some(Apply(s, steps[|steps| - 1])) else None
  }

  // ---- what every run keeps ----

  /** The stream is the newest part of the ghost log, and `published` enumerates the
      logs without repetition. */
  ghost predicate LogInv(s: State) {
    && (s.stream.Some? ==>
         s.stream.value.Valid() && s.stream.value.epoch in s.logs && s.stream.value.log == s.logs[s.stream.value.epoch])
    && (forall n :: 0 <= n < |s.published| ==>
         s.published[n].epoch in s.logs && 1 <= s.published[n].offset <= |s.logs[s.published[n].epoch]|)
    && (forall n, m :: 0 <= n < m < |s.published| ==> s.published[n] != s.published[m])
    && (forall e, o :: e in s.logs && 1 <= o <= |s.logs[e]| ==> Place(e, o) in s.published)
  }

  /** Every publication is offered at most once, and not while in flight. */
  ghost predicate OnceInv(s: State) {
    && (forall n :: n in s.flights ==> n < |s.published|)
    && (forall i :: 0 <= i < |s.offered| ==> s.offered[i] < |s.published| && s.offered[i] !in s.flights)
    && (forall i, j :: 0 <= i < j < |s.offered| ==> s.offered[i] != s.offered[j])
  }

  ghost predicate OnItsWay(s: State, n: nat, from: nat)
    requires from <= |s.offered|
  {
    n in s.offered[from..] || (n in s.flights && s.flights[n] != Picked(false))
  }

  /** While the connection stays registered, everything published after it read the
      history has been offered to it since it entered the hub, or will be. */
  ghost predicate LiveInv(s: State) {
    && (s.registered && !s.sub.Idle? ==> s.inHub)
    && (!s.sub.Idle? ==> s.sub.from <= |s.offered|)
    && (s.sub.Active? && s.registered ==>
         forall n :: s.sub.mark <= n < |s.published| ==> OnItsWay(s, n, s.sub.from))
  }

  /** What the connection read, compared with the ghost log. */
  ghost predicate ReadInv(s: State) {
    s.sub.Active? ==>
      && s.sub.mark <= |s.published|
      && s.sub.top.epoch in s.logs && s.sub.top.offset <= |s.logs[s.sub.top.epoch]|
      && (forall n :: 0 <= n < s.sub.mark && s.published[n].epoch == s.sub.top.epoch ==> s.published[n].offset <= s.sub.top.offset)
      && (s.sub.request.Recover? && s.sub.top.offset < TWO_64 && Recovered(s.sub.answer, s.sub.top, s.sub.request.offset, s.sub.request.epoch) ==>
           && s.sub.request.epoch == s.sub.top.epoch
           && s.sub.request.offset + |s.sub.answer| == s.sub.top.offset
           && forall i :: 0 <= i < |s.sub.answer| ==> s.sub.answer[i] == At(s.logs[s.sub.top.epoch], s.sub.request.offset + i))
  }

  ghost predicate Inv(s: State) {
    LogInv(s) && OnceInv(s) && LiveInv(s) && ReadInv(s)
  }

  lemma TouchKeepsInv(s: State, newEpoch: Epoch)
    requires Inv(s) && FreshEpoch(s, newEpoch)
    ensures Inv(Touch(s, newEpoch)) && Touch(s, newEpoch).stream.Some?
  {
    var t := Touch(s, newEpoch);
    if s.stream.None? {
      assert forall n :: 0 <= n < |s.published| ==> s.published[n].epoch != newEpoch;
      assert LogInv(t);
      assert forall n :: s.sub.Active? && OnItsWay(s, n, s.sub.from) ==> OnItsWay(t, n, s.sub.from);
    }
  }

  lemma AppendKeepsLogInv(s: State, entry: Entry, size: nat)
    requires LogInv(s) && s.stream.Some?
    ensures LogInv(AppendTo(s, entry, size))
  {
    var t := AppendTo(s, entry, size);
    var e := s.stream.value.epoch;
    assert t.published[|s.published|] == Place(e, |s.logs[e]| + 1);
    forall n, m | 0 <= n < m < |t.published| ensures t.published[n] != t.published[m] {
      assert t.published[n] == s.published[n];
    }
    forall e', o | e' in t.logs && 1 <= o <= |t.logs[e']| ensures Place(e', o) in t.published {
      if e' != e || o <= |s.logs[e]| { assert Place(e', o) in s.published; }
      else { assert Place(e', o) == t.published[|s.published|]; }
    }
  }

  lemma AppendKeepsInv(s: State, entry: Entry, size: nat)
    requires Inv(s) && s.stream.Some?
    ensures Inv(AppendTo(s, entry, size))
  {
    var t := AppendTo(s, entry, size);
    AppendKeepsLogInv(s, entry, size);
    assert OnceInv(t);
    forall n | s.sub.Active? && s.registered && s.sub.mark <= n < |t.published| ensures OnItsWay(t, n, s.sub.from) {
      if n < |s.published| { assert OnItsWay(s, n, s.sub.from); }
    }
    if s.sub.Active? {
      var e := s.sub.top.epoch;
      assert s.logs[e] <= t.logs[e];
      assert forall i :: 0 <= i < |s.logs[e]| ==> At(t.logs[e], i) == At(s.logs[e], i);
      assert forall n :: 0 <= n < s.sub.mark ==> t.published[n] == s.published[n];
    }
  }

  lemma ReadKeepsInv(s: State, request: Request)
    requires Inv(s) && s.stream.Some? && s.sub.Entered?
    ensures Inv(ReadFor(s, request))
  {
    var t := ReadFor(s, request);
    var stream := s.stream.value;
    if request.Recover? && |stream.log| < TWO_64 {
      RecoveryIsExact(stream, request.offset, request.epoch);
      AfterAt(stream, request.offset);
    }
  }

  /** Offering moves a publication from the flights to the queue. */
  lemma OfferKeepsInv(s: State, n: nat)
    requires Inv(s) && Enabled(s, Offer(n))
    ensures Inv(Apply(s, Offer(n)))
  {
    var t := Apply(s, Offer(n));
    assert t.offered[|s.offered|] == n;
    forall m | s.sub.Active? && s.registered && s.sub.mark <= m < |s.published| ensures OnItsWay(t, m, s.sub.from) {
      assert OnItsWay(s, m, s.sub.from);
      assert t.offered[s.sub.from..] == s.offered[s.sub.from..] + [n];
    }
  }

  lemma SmallStepKeepsInv(s: State, step: Step)
    requires Inv(s) && Enabled(s, step)
    requires !(step.Publish? || step.ReadHistory? || step.Offer? || step.SomeoneReads?)
    ensures Inv(Apply(s, step))
  {
    hide Stream.Retained, Stream.Since, Recovered;
    var t := Apply(s, step);
    assert t.logs == s.logs && t.published == s.published && t.offered == s.offered;
    if t.sub.Active? {
      assert forall m :: OnItsWay(s, m, s.sub.from) && t.registered ==> OnItsWay(t, m, s.sub.from);
    }
  }

  lemma StepKeepsInv(s: State, step: Step)
    requires Inv(s) && Enabled(s, step)
    ensures Inv(Apply(s, step))
  {
    match step
    case Publish(entry, size, newEpoch) =>
      TouchKeepsInv(s, newEpoch);
      AppendKeepsInv(Touch(s, newEpoch), entry, size);
    case SomeoneReads(newEpoch) =>
      TouchKeepsInv(s, newEpoch);
    case ReadHistory(request, newEpoch) =>
      TouchKeepsInv(s, newEpoch);
      ReadKeepsInv(Touch(s, newEpoch), request);
    case Offer(n) =>
      OfferKeepsInv(s, n);
    case _ =>
      SmallStepKeepsInv(s, step);
  }

  lemma {:induction false} RunKeepsInv(steps: seq<Step>)
    requires Run(steps).Some?
    ensures Inv(Run(steps).value)
  {
    if steps != [] {
      var before := steps[..|steps| - 1];
      RunKeepsInv(before);
      StepKeepsInv(Run(before).value, steps[|steps| - 1]);
    }
  }

  // ---- the guarantees ----

  /** The connection got publication `offset` of `epoch`: in the recovered list, or
      offered to its queue since it entered the hub. */
  ghost predicate Got(s: State, epoch: Epoch, offset: nat)
    requires s.sub.Active? && s.sub.from <= |s.offered|
  {
    || (exists p :: p in s.sub.answer && p.offset == offset && epoch == s.sub.top.epoch
                    && epoch in s.logs && 1 <= offset <= |s.logs[epoch]| && p == At(s.logs[epoch], offset - 1))
    || (exists n :: n in s.offered[s.sub.from..] && n < |s.published| && s.published[n] == Place(epoch, offset))
  }

  /** No loss, however a (re)subscribe interleaves with publishers: once nothing is in
      flight, a connection that was told it recovered and was not dropped has got
      every publication after the requested offset. */
  lemma NoLossWhenRecovered(steps: seq<Step>, s: State, offset: nat)
    requires Run(steps) == Some(s) && s.flights == map[] && s.registered
    requires s.sub.Active? && s.sub.request.Recover? && s.sub.top.offset < TWO_64
    requires Recovered(s.sub.answer, s.sub.top, s.sub.request.offset, s.sub.request.epoch)
    requires s.sub.request.epoch in s.logs
    requires s.sub.request.offset < offset <= |s.logs[s.sub.request.epoch]|
    ensures s.sub.from <= |s.offered| && Got(s, s.sub.request.epoch, offset)
  {
    RunKeepsInv(steps);
    if offset <= s.sub.top.offset {
      EarlierIsRecovered(s, offset);
    } else {
      LaterIsOffered(s, s.sub.request.epoch, offset);
    }
  }

  lemma EarlierIsRecovered(s: State, offset: nat)
    requires LogInv(s) && ReadInv(s) && s.sub.Active? && s.sub.from <= |s.offered|
    requires s.sub.request.Recover? && s.sub.top.offset < TWO_64
    requires Recovered(s.sub.answer, s.sub.top, s.sub.request.offset, s.sub.request.epoch)
    requires s.sub.request.offset < offset <= s.sub.top.offset
    ensures Got(s, s.sub.request.epoch, offset)
  {
    var i := offset - s.sub.request.offset - 1;
    var p := s.sub.answer[i];
    assert p == At(s.logs[s.sub.top.epoch], s.sub.request.offset + i);
    assert p in s.sub.answer;
  }

  /** Past the position a subscribe reported, everything is offered live: the rest of
      that epoch, and all of any later one. */
  lemma NothingMissedPastTheTop(steps: seq<Step>, s: State, epoch: Epoch, offset: nat)
    requires Run(steps) == Some(s) && s.flights == map[] && s.registered && s.sub.Active?
    requires epoch in s.logs && 1 <= offset <= |s.logs[epoch]|
    requires if epoch == s.sub.top.epoch then offset > s.sub.top.offset
             else forall n :: 0 <= n < s.sub.mark && n < |s.published| ==> s.published[n].epoch != epoch
    ensures s.sub.from <= |s.offered| && Got(s, epoch, offset)
  {
    RunKeepsInv(steps);
    LaterIsOffered(s, epoch, offset);
  }

  lemma LaterIsOffered(s: State, epoch: Epoch, offset: nat)
    requires Inv(s) && s.flights == map[] && s.registered && s.sub.Active?
    requires epoch in s.logs && 1 <= offset <= |s.logs[epoch]|
    requires if epoch == s.sub.top.epoch then offset > s.sub.top.offset
             else forall n :: 0 <= n < s.sub.mark && n < |s.published| ==> s.published[n].epoch != epoch
    ensures s.sub.from <= |s.offered| && Got(s, epoch, offset)
  {
    assert Place(epoch, offset) in s.published;
    var n :| 0 <= n < |s.published| && s.published[n] == Place(epoch, offset);
    assert n >= s.sub.mark;
    assert OnItsWay(s, n, s.sub.from);
  }

  /** Nothing arrives twice: no publication is offered twice in the life of the
      connection, and a recovered list has no offset twice. */
  lemma AtMostOnce(steps: seq<Step>, s: State)
    requires Run(steps) == Some(s)
    ensures forall i, j :: 0 <= i < j < |s.offered| ==>
              s.offered[i] < |s.published| && s.offered[j] < |s.published| && s.published[s.offered[i]] != s.published[s.offered[j]]
    ensures s.sub.Active? && s.sub.request.Recover? && s.sub.top.offset < TWO_64
            && Recovered(s.sub.answer, s.sub.top, s.sub.request.offset, s.sub.request.epoch) ==>
              forall i, j :: 0 <= i < j < |s.sub.answer| ==> s.sub.answer[i].offset < s.sub.answer[j].offset
  {
    RunKeepsInv(steps);
    forall i, j | 0 <= i < j < |s.offered|
      ensures s.offered[i] < |s.published| && s.offered[j] < |s.published| && s.published[s.offered[i]] != s.published[s.offered[j]]
    {
      assert s.offered[i] != s.offered[j];
    }
  }

  /** A client that resumes by echoing a position `v` it was once given, and is told it
      recovered, ends up with everything published after `v`, in either wire mode. */
  lemma NoLossAfterResuming(steps: seq<Step>, s: State, v: u64, useSeqGen: bool, offset: nat)
    requires Run(steps) == Some(s) && s.flights == map[] && s.registered
    requires s.sub.Active? && s.sub.request.Recover? && s.sub.top.offset < TWO_64
    requires s.sub.request.offset == RequestedOffset(EncodePosition(v, useSeqGen))
    requires Recovered(s.sub.answer, s.sub.top, s.sub.request.offset, s.sub.request.epoch)
    requires s.sub.request.epoch in s.logs && v < offset <= |s.logs[s.sub.request.epoch]|
    ensures s.sub.from <= |s.offered| && Got(s, s.sub.request.epoch, offset)
  {
    EchoNeverSkips(v, useSeqGen);
    NoLossWhenRecovered(steps, s, offset);
  }

  // ---- order of live publications ----

  /** Every publish finishes before the next one starts. */
  ghost predicate OneAtATime(steps: seq<Step>) {
    forall k :: 0 <= k < |steps| && steps[k].Publish? ==> Run(steps[..k]).Some? && Run(steps[..k]).value.flights == map[]
  }

  ghost predicate InPublishOrder(s: State) {
    forall i, j :: 0 <= i < j < |s.offered| ==> s.offered[i] < s.offered[j]
  }

  /** With one publisher at a time, the live order is the order of publishing. */
  lemma {:induction false} LiveOrder(steps: seq<Step>, s: State)
    requires Run(steps) == Some(s) && OneAtATime(steps)
    ensures InPublishOrder(s)
    ensures forall n :: n in s.flights ==> n == |s.published| - 1
  {
    if steps != [] {
      var before := steps[..|steps| - 1];
      var b := Run(before).value;
      forall k | 0 <= k < |before| && before[k].Publish?
        ensures Run(before[..k]).Some? && Run(before[..k]).value.flights == map[]
      {
        assert before[..k] == steps[..k] && before[k] == steps[k];
      }
      LiveOrder(before, b);
      RunKeepsInv(before);
      assert steps[|steps| - 1].Publish? ==> b.flights == map[];
      LiveOrderStep(b, steps[|steps| - 1]);
    }
  }

  lemma LiveOrderStep(b: State, step: Step)
    requires OnceInv(b) && InPublishOrder(b) && Enabled(b, step)
    requires forall n :: n in b.flights ==> n == |b.published| - 1
    requires step.Publish? ==> b.flights == map[]
    ensures InPublishOrder(Apply(b, step))
    ensures forall n :: n in Apply(b, step).flights ==> n == |Apply(b, step).published| - 1
  {
    if step.Offer? {
      assert forall i :: 0 <= i < |b.offered| ==> b.offered[i] < step.n;
    }
  }

  /** Never more than `k` publications are between their append and their last offer. */
  ghost predicate AtMostInFlight(steps: seq<Step>, k: nat) {
    forall j :: 0 <= j <= |steps| && Run(steps[..j]).Some? ==> |Run(steps[..j]).value.flights| <= k
  }

  /** With two publications in flight, as the memory engine allows, live pushes can
      arrive out of order. */
  lemma LiveOrderNeedsOnePublisher(a: Entry, b: Entry, epoch: Epoch) returns (steps: seq<Step>)
    ensures Run(steps).Some? && Run(steps).value.offered == [1, 0] && !InPublishOrder(Run(steps).value)
    ensures AtMostInFlight(steps, 2)
  {
    hide Run, AtMostInFlight;
    var s;
    steps, s := TwoInFlight(a, b, epoch);
    steps, s := Extend(steps, s, Pick(0));
    steps, s := Extend(steps, s, Pick(1));
    steps, s := Extend(steps, s, Offer(1));
    steps, s := Extend(steps, s, Offer(0));
    assert s.offered == [1, 0] && s.offered[0] == 1 && s.offered[1] == 0;
  }

  lemma TwoInFlight(a: Entry, b: Entry, epoch: Epoch) returns (steps: seq<Step>, s: State)
    ensures Run(steps) == Some(s) && s.flights == map[0 := Appended, 1 := Appended] && AtMostInFlight(steps, 2)
    ensures s.offered == [] && s.inHub && s.registered
  {
    hide Stream.Retained, Append, AtMostInFlight;
    steps, s := [], INIT;
    NoneInFlight();
    steps, s := Extend(steps, s, EnterHub);
    steps, s := Extend(steps, s, ReadHistory(Plain, epoch));
    steps, s := Extend(steps, s, Publish(a, 10, epoch));
    assert |s.published| == 1;
    steps, s := Extend(steps, s, Publish(b, 10, epoch));
  }

  lemma NoneInFlight()
    ensures AtMostInFlight([], 2)
  {
  }

  lemma Extend(steps: seq<Step>, s: State, step: Step) returns (steps': seq<Step>, s': State)
    requires Run(steps) == Some(s) && Enabled(s, step) && AtMostInFlight(steps, 2) && |Apply(s, step).flights| <= 2
    ensures steps' == steps + [step] && s' == Apply(s, step) && Run(steps') == Some(s') && AtMostInFlight(steps', 2)
  {
    hide Apply, Enabled;
    steps', s' := steps + [step], Apply(s, step);
    assert steps'[..|steps|] == steps && steps'[..|steps'|] == steps';
    forall j | 0 <= j <= |steps'| && Run(steps'[..j]).Some? ensures |Run(steps'[..j]).value.flights| <= 2 {
      if j <= |steps| { assert steps'[..j] == steps[..j]; }
    }
  }

  lemma PublishAddsOne(s: State, step: Step)
    requires Inv(s) && Enabled(s, step) && step.Publish?
    ensures |Apply(s, step).flights| == |s.flights| + 1
  {
    hide LogInv, LiveInv, ReadInv, StreamModel.Append;
    OneKeyMore(s.flights, |s.published|, Appended);
  }

  lemma OneKeyMore<K, V>(m: map<K, V>, k: K, v: V)
    requires k !in m
    ensures |m[k := v]| == |m| + 1
  {
    assert m[k := v].Keys == m.Keys + {k};
  }

  /** A publish adds to what is in flight. */
  lemma SingleFileIsOneAtATime(steps: seq<Step>)
    requires Run(steps).Some? && AtMostInFlight(steps, 1)
    ensures OneAtATime(steps)
  {
    forall k | 0 <= k < |steps| && steps[k].Publish?
      ensures Run(steps[..k]).Some? && Run(steps[..k]).value.flights == map[]
    {
      PrefixRuns(steps, k + 1);
      PrefixRuns(steps, k);
      assert steps[..k + 1][..k] == steps[..k];
      hide Inv, Apply, Enabled;
      RunKeepsInv(steps[..k]);
      PublishAddsOne(Run(steps[..k]).value, steps[k]);
    }
  }

  lemma {:induction false} PrefixRuns(steps: seq<Step>, k: nat)
    requires Run(steps).Some? && k <= |steps|
    ensures Run(steps[..k]).Some?
    decreases |steps|
  {
    if k == |steps| {
      assert steps[..k] == steps;
    } else {
      assert steps[..|steps| - 1][..k] == steps[..k];
      PrefixRuns(steps[..|steps| - 1], k);
    }
  }

  /** Live order holds in every run of at most `k` publications in flight exactly when
      that is no more than one. */
  lemma LiveOrderExactly(k: nat)
    ensures (forall steps :: AtMostInFlight(steps, k) && Run(steps).Some? ==> InPublishOrder(Run(steps).value)) <==> k <= 1
  {
    hide Run, InPublishOrder;
    if k <= 1 {
      forall steps | AtMostInFlight(steps, k) && Run(steps).Some? ensures InPublishOrder(Run(steps).value) {
        assert AtMostInFlight(steps, 1);
        SingleFileIsOneAtATime(steps);
        LiveOrder(steps, Run(steps).value);
      }
    } else {
      var steps := LiveOrderNeedsOnePublisher(Entry([], None), Entry([], None), []);
      assert AtMostInFlight(steps, k);
    }
  }

  /** Each offer is of the earliest publication in flight, as when one task routes what
      the broker delivers, one message after the other. */
  ghost predicate RoutedInTurn(steps: seq<Step>) {
    forall k :: 0 <= k < |steps| && steps[k].Offer? && Run(steps[..k]).Some? ==>
      forall m :: m in Run(steps[..k]).value.flights ==> steps[k].n <= m
  }

  /** With Redis the append publishes too, and one task routes in turn: live order holds
      for any number of publishers. */
  lemma {:induction false} LiveOrderInTurn(steps: seq<Step>, s: State)
    requires Run(steps) == Some(s) && RoutedInTurn(steps)
    ensures InPublishOrder(s)
    ensures forall i, m :: 0 <= i < |s.offered| && m in s.flights ==> s.offered[i] < m
  {
    if steps != [] {
      var n := |steps| - 1;
      var before := steps[..n];
      var b := Run(before).value;
      forall k | 0 <= k < n && before[k].Offer? && Run(before[..k]).Some?
        ensures forall m :: m in Run(before[..k]).value.flights ==> before[k].n <= m
      {
        assert before[..k] == steps[..k] && before[k] == steps[k];
      }
      LiveOrderInTurn(before, b);
      RunKeepsInv(before);
      assert steps[n].Offer? ==> forall m :: m in b.flights ==> steps[n].n <= m;
      InTurnStep(b, steps[n]);
    }
  }

  lemma InTurnStep(b: State, step: Step)
    requires OnceInv(b) && InPublishOrder(b) && Enabled(b, step)
    requires forall i, m :: 0 <= i < |b.offered| && m in b.flights ==> b.offered[i] < m
    requires step.Offer? ==> forall m :: m in b.flights ==> step.n <= m
    ensures InPublishOrder(Apply(b, step))
    ensures forall i, m :: 0 <= i < |Apply(b, step).offered| && m in Apply(b, step).flights ==> Apply(b, step).offered[i] < m
  {
  }
}
