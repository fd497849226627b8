/** The writer task of a connection in crates/centrifugo-server/src/ws.rs: it drains
    the connection's queue and merges up to four queued frames into one message. */
module Writer {
  import opened Common
  import Framing

  const MAX_FRAMES := 4

  datatype Message = Data(bytes: Bytes) | CloseFrame(disconnect: Disconnect) | Ping

  /** One turn of the writer's `select!`: a ping tick, or a receive that finds
      `ready` more items queued behind the first. `sinkOk` and `closeOk` say whether
      the socket takes the message and the close frame. */
  datatype Turn = Tick(sinkOk: bool) | Receive(ready: nat, sinkOk: bool, closeOk: bool)

  /** Why the writer stopped; `Waiting` if it has not. */
  datatype Ended = Waiting | Drained | Closed | SinkFailed

  function FirstClose(queue: seq<Out<Bytes>>): (k: nat)
    ensures k <= |queue|
    ensures forall i :: 0 <= i < k ==> queue[i].Frame?
    ensures k < |queue| ==> queue[k].Close?
  {
    if queue == [] || queue[0].Close? then 0 else 1 + FirstClose(queue[1..])
  }

  function FramesOf(queue: seq<Out<Bytes>>): seq<Bytes>
    requires forall i :: 0 <= i < |queue| ==> queue[i].Frame?
  {
    seq(|queue|, i requires 0 <= i < |queue| => queue[i].frame)
  }

  /** The data messages among everything written, in order. */
  function DataOf(sent: seq<Message>): seq<Bytes> {
    if sent == [] then []
    else
      var last := sent[|sent| - 1];
      DataOf(sent[..|sent| - 1]) + if last.Data? then [last.bytes] else []
  }

  lemma DataSnoc(sent: seq<Message>, m: Message)
    ensures DataOf(sent + [m]) == DataOf(sent) + if m.Data? then [m.bytes] else []
  {
    assert (sent + [m])[..|sent|] == sent;
  }

  function Receives(turns: seq<Turn>): nat {
    if turns == [] then 0
    else Receives(turns[..|turns| - 1]) + if turns[|turns| - 1].Receive? then 1 else 0
  }

  /** Each message is the concatenation of one group of one to four frames. */
  ghost predicate MergedFrom(messages: seq<Bytes>, groups: seq<seq<Bytes>>) {
    && |messages| == |groups|
    && forall i :: 0 <= i < |groups| ==> 1 <= |groups[i]| <= MAX_FRAMES && messages[i] == Concat(groups[i])
  }

  lemma ConcatSnoc<T>(chunks: seq<seq<T>>, chunk: seq<T>)
    ensures Concat(chunks + [chunk]) == Concat(chunks) + chunk
  {
    ConcatAppend(chunks, [chunk]);
    assert [chunk][1..] == [];
    assert Concat([chunk]) == chunk + Concat([chunk][1..]);
  }

  /** Takes up to three more queued frames, stopping at a close or an empty queue. */
  method Coalesce(queue: seq<Out<Bytes>>, start: nat, ready: nat)
    returns (buf: Bytes, pos: nat, pendingClose: Option<Disconnect>, ghost group: seq<Bytes>)
    requires start < FirstClose(queue)
    ensures start < pos <= FirstClose(queue) + 1 && pos <= |queue|
    ensures pendingClose.Some? <==> pos == FirstClose(queue) + 1
    ensures pendingClose.Some? ==> queue[pos - 1] == Close(pendingClose.value)
    ensures group == FramesOf(queue[start..if pendingClose.Some? then pos - 1 else pos])
    ensures 1 <= |group| <= MAX_FRAMES && buf == Concat(group)
  {
    buf, pos, pendingClose := queue[start].frame, start + 1, None;
    group := [buf];
    ConcatSnoc([], buf);
    assert [] + [buf] == group;
    var n, left := 1, ready;
    while n < MAX_FRAMES
      invariant start < pos <= FirstClose(queue)
      invariant n == |group| == pos - start && n <= MAX_FRAMES
      invariant group == FramesOf(queue[start..pos]) && buf == Concat(group)
      invariant pendingClose == None
    {
      if left == 0 || pos == |queue| { break; }
      left := left - 1;
      match queue[pos]
      case Frame(more) =>
        ConcatSnoc(group, more);
        buf := buf + more;
        group := group + [more];
        n := n + 1;
        pos := pos + 1;
        assert queue[start..pos] == queue[start..pos - 1] + [queue[pos - 1]];
      case Close(d) =>
        pendingClose := Some(d);
        pos := pos + 1;
        break;
    }
  }

  /** How much of the queue the merged frames account for. */
  ghost predicate Accounts(queue: seq<Out<Bytes>>, pos: nat, ended: Ended, groups: seq<seq<Bytes>>)
    requires pos <= |queue|
  {
    var frames := FramesOf(queue[..if pos <= FirstClose(queue) then pos else FirstClose(queue)]);
    if ended == SinkFailed then Concat(groups) <= frames else Concat(groups) == frames
  }

  /** What has been written is the frames queued before the first close, in order,
      merged in groups of one to four; the close frame of that close comes last, and
      nothing after it. */
  ghost predicate Transcript(queue: seq<Out<Bytes>>, sent: seq<Message>, pos: nat, ended: Ended, groups: seq<seq<Bytes>>) {
    && pos <= |queue| && pos <= FirstClose(queue) + 1
    && MergedFrom(DataOf(sent), groups)
    && Accounts(queue, pos, ended, groups)
    && (ended in {Waiting, Drained} ==> pos <= FirstClose(queue))
    && (ended == Drained ==> pos == |queue|)
    && (ended == Closed ==> pos == FirstClose(queue) + 1)
    && forall i :: 0 <= i < |sent| && sent[i].CloseFrame? ==>
         i == |sent| - 1 && ended == Closed && queue[pos - 1] == Close(sent[i].disconnect)
  }

  lemma AfterPing(queue: seq<Out<Bytes>>, sent: seq<Message>, pos: nat, groups: seq<seq<Bytes>>)
    requires Transcript(queue, sent, pos, Waiting, groups)
    ensures Transcript(queue, sent + [Ping], pos, Waiting, groups)
  {
    DataSnoc(sent, Ping);
  }

  lemma AfterClose(queue: seq<Out<Bytes>>, sent: seq<Message>, pos: nat, groups: seq<seq<Bytes>>, closeOk: bool)
    requires Transcript(queue, sent, pos, Waiting, groups) && pos < |queue| && queue[pos].Close?
    ensures Transcript(queue, if closeOk then sent + [CloseFrame(queue[pos].disconnect)] else sent, pos + 1, Closed, groups)
  {
    if closeOk { DataSnoc(sent, CloseFrame(queue[pos].disconnect)); }
  }

  lemma FramesSplit(queue: seq<Out<Bytes>>, i: nat, j: nat)
    requires i <= j <= FirstClose(queue)
    ensures FramesOf(queue[..j]) == FramesOf(queue[..i]) + FramesOf(queue[i..j])
  {
    assert queue[..j] == queue[..i] + queue[i..j];
  }

  lemma AfterFrames(queue: seq<Out<Bytes>>, sent: seq<Message>, start: nat, groups: seq<seq<Bytes>>, group: seq<Bytes>, upTo: nat)
    requires Transcript(queue, sent, start, Waiting, groups)
    requires start < upTo <= FirstClose(queue) && group == FramesOf(queue[start..upTo]) && 1 <= |group| <= MAX_FRAMES
    ensures Transcript(queue, sent + [Data(Concat(group))], upTo, Waiting, groups + [group])
  {
    DataSnoc(sent, Data(Concat(group)));
    ConcatSnoc(groups, group);
    FramesSplit(queue, start, upTo);
  }

  lemma AfterSinkFailure(queue: seq<Out<Bytes>>, sent: seq<Message>, start: nat, groups: seq<seq<Bytes>>, pos: nat)
    requires Transcript(queue, sent, start, Waiting, groups)
    requires start <= pos <= FirstClose(queue) + 1 && pos <= |queue|
    ensures Transcript(queue, sent, pos, SinkFailed, groups)
  {
    FramesSplit(queue, start, if pos <= FirstClose(queue) then pos else FirstClose(queue));
  }

  lemma AfterDrain(queue: seq<Out<Bytes>>, sent: seq<Message>, groups: seq<seq<Bytes>>)
    requires Transcript(queue, sent, |queue|, Waiting, groups)
    ensures Transcript(queue, sent, |queue|, Drained, groups)
  {
  }

  /** One receive of the writer's loop, from a queue that still has items. */
  method ReceiveTurn(queue: seq<Out<Bytes>>, sent0: seq<Message>, start: nat, turn: Turn, ghost groups0: seq<seq<Bytes>>)
    returns (sent: seq<Message>, pos: nat, ended: Ended, ghost groups: seq<seq<Bytes>>)
    requires Transcript(queue, sent0, start, Waiting, groups0) && start < |queue| && turn.Receive?
    ensures Transcript(queue, sent, pos, ended, groups) && pos > start
    ensures ended == SinkFailed ==> !turn.sinkOk
    ensures ended == Closed && turn.closeOk ==> sent != [] && sent[|sent| - 1].CloseFrame?
    ensures ended != Drained
  {
    if queue[start].Close? {
      AfterClose(queue, sent0, start, groups0, turn.closeOk);
      sent := if turn.closeOk then sent0 + [CloseFrame(queue[start].disconnect)] else sent0;
      return sent, start + 1, Closed, groups0;
    }
    var buf, next, pendingClose, group := Coalesce(queue, start, turn.ready);
    if !turn.sinkOk {
      AfterSinkFailure(queue, sent0, start, groups0, next);
      return sent0, next, SinkFailed, groups0;
    }
    ghost var upTo := if pendingClose.Some? then next - 1 else next;
    AfterFrames(queue, sent0, start, groups0, group, upTo);
    sent, pos, ended, groups := sent0 + [Data(buf)], next, Waiting, groups0 + [group];
    if pendingClose.Some? {
      AfterClose(queue, sent, upTo, groups, turn.closeOk);
      ended := Closed;
      if turn.closeOk {
        sent := sent + [CloseFrame(pendingClose.value)];
      }
    }
  }

  /** `queue` is everything the connection's senders will ever enqueue. */
  method RunWriter(queue: seq<Out<Bytes>>, turns: seq<Turn>)
    returns (sent: seq<Message>, pos: nat, ended: Ended, ghost groups: seq<seq<Bytes>>)
    ensures Transcript(queue, sent, pos, ended, groups)
    ensures ended == Closed && (forall t :: t in turns && t.Receive? ==> t.closeOk) ==> sent != [] && sent[|sent| - 1].CloseFrame?
    ensures ended == Waiting ==> pos >= Receives(turns)
    ensures (forall t :: t in turns ==> t.sinkOk) ==> ended != SinkFailed
  {
    sent, pos, ended, groups := [], 0, Waiting, [];
    assert queue[..0] == [];
    var k := 0;
    while k < |turns| && ended == Waiting
      invariant k <= |turns|
      invariant Transcript(queue, sent, pos, ended, groups)
      invariant ended == Closed && (forall t :: t in turns && t.Receive? ==> t.closeOk) ==> sent != [] && sent[|sent| - 1].CloseFrame?
      invariant ended == Waiting ==> pos >= Receives(turns[..k])
      invariant (forall t :: t in turns ==> t.sinkOk) ==> ended != SinkFailed
    {
      var turn := turns[k];
      assert turn in turns;
      assert turns[..k + 1][..k] == turns[..k];
      k := k + 1;
      if turn.Tick? {
        if turn.sinkOk {
          AfterPing(queue, sent, pos, groups);
          sent := sent + [Ping];
        } else {
          AfterSinkFailure(queue, sent, pos, groups, pos);
          ended := SinkFailed;
        }
      } else if pos == |queue| {
        AfterDrain(queue, sent, groups);
        ended := Drained;
      } else {
        sent, pos, ended, groups := ReceiveTurn(queue, sent, pos, turn, groups);
      }
    }
    assert turns[..|turns|] == turns;
  }

  /** Merging is transparent: a merged message unframes to the messages of its
      frames, in order. */
  lemma {:induction false} UnframeMerged<T>(group: seq<Bytes>, messages: seq<seq<T>>, dec: Bytes -> Option<T>)
    requires |group| == |messages|
    requires forall i :: 0 <= i < |group| ==> Framing.Unframe(group[i], dec) == Ok(messages[i])
    ensures Framing.Unframe(Concat(group), dec) == Ok(Concat(messages))
  {
    if group != [] {
      UnframeMerged(group[1..], messages[1..], dec);
      Framing.UnframeConcat(group[0], Concat(group[1..]), dec);
    }
  }

  /** The messages of several transport messages, one after the other. */
  function UnframeAll<T>(datas: seq<Bytes>, dec: Bytes -> Option<T>): Result<seq<T>, Framing.CodecError> {
    if datas == [] then Ok([])
    else match Framing.Unframe(datas[0], dec)
      case Err(e) => Err(e)
      case Ok(xs) => Framing.AppendTo(xs, UnframeAll(datas[1..], dec))
  }

  lemma {:induction false} UnframeGroups<T>(datas: seq<Bytes>, groups: seq<seq<Bytes>>, messages: seq<seq<T>>, dec: Bytes -> Option<T>)
    requires MergedFrom(datas, groups) && |Concat(groups)| == |messages|
    requires forall i :: 0 <= i < |messages| ==> Framing.Unframe(Concat(groups)[i], dec) == Ok(messages[i])
    ensures UnframeAll(datas, dec) == Ok(Concat(messages))
  {
    hide Framing.Unframe;
    if groups != [] {
      var n := |groups[0]|;
      var rest := Concat(groups[1..]);
      assert Concat(groups)[..n] == groups[0] && Concat(groups)[n..] == rest;
      forall i | 0 <= i < n ensures Framing.Unframe(groups[0][i], dec) == Ok(messages[..n][i]) {
        assert Concat(groups)[i] == groups[0][i];
      }
      forall i | 0 <= i < |rest| ensures Framing.Unframe(rest[i], dec) == Ok(messages[n..][i]) {
        assert Concat(groups)[n + i] == rest[i];
      }
      UnframeMerged(groups[0], messages[..n], dec);
      UnframeGroups(datas[1..], groups[1..], messages[n..], dec);
      ConcatAppend(messages[..n], messages[n..]);
      assert messages == messages[..n] + messages[n..];
    }
  }

  /** How many of the queued frames a transcript accounts for: all before the first
      close once the writer has stopped by itself, all it took while it runs. */
  ghost function FramesWritten(queue: seq<Out<Bytes>>, pos: nat, ended: Ended, groups: seq<seq<Bytes>>): nat {
    match ended
    case Waiting => pos
    case SinkFailed => |Concat(groups)|
    case _ => FirstClose(queue)
  }

  /** What a client decodes from everything written is what the queued frames say, in
      order and nothing else: all frames before the first close, unless the socket
      failed. */
  lemma WriterIsTransparent<T>(queue: seq<Out<Bytes>>, sent: seq<Message>, pos: nat, ended: Ended, groups: seq<seq<Bytes>>,
                               messages: seq<seq<T>>, dec: Bytes -> Option<T>)
    requires Transcript(queue, sent, pos, ended, groups) && |messages| == FirstClose(queue)
    requires forall i :: 0 <= i < FirstClose(queue) ==> Framing.Unframe(queue[i].frame, dec) == Ok(messages[i])
    ensures FramesWritten(queue, pos, ended, groups) <= FirstClose(queue)
    ensures UnframeAll(DataOf(sent), dec) == Ok(Concat(messages[..FramesWritten(queue, pos, ended, groups)]))
  {
    hide Framing.Unframe;
    var m := FramesWritten(queue, pos, ended, groups);
    var frames := Concat(groups);
    assert |frames| == m && m <= FirstClose(queue) && forall i :: 0 <= i < m ==> frames[i] == queue[i].frame;
    UnframeGroups(DataOf(sent), groups, messages[..m], dec);
  }
}
