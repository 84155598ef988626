/** The way out: what the readers of the local sockets read is sent over the one websocket, under the write
    mutex, by all of them at once. Each call of sendMessage is recorded, with who made it and whether the
    message was written; those that were written are what is on the wire. */
module PipelineOutbound {
  import opened Basics
  import opened Protobuf
  import opened Pipeline
  import opened PipelineInvariants
  import opened PipelineProofs
  import opened PipelineResets
  import opened PipelineStops
  import PipelineDelivery

  // ---------------------------------------------------------------------------
  //  One sender
  // ---------------------------------------------------------------------------

  /** What one thread has sent, in order. */
  function From(sends: seq<Sent>, sender: Tid): seq<Sent> {
    if sends == [] then []
    else From(sends[..|sends| - 1], sender) + Only(sends[|sends| - 1], sender)
  }

  function Only(m: Sent, sender: Tid): seq<Sent> {
    if m.sender == sender then [m] else []
  }

  lemma FromOfMore(sends: seq<Sent>, more: seq<Sent>, sender: Tid)
    requires |more| <= 1
    ensures From(sends + more, sender)
         == if more == [] then From(sends, sender) else From(sends, sender) + Only(more[0], sender)
  {
    if more == [] {
      assert sends + more == sends;
    } else {
      assert (sends + more)[..|sends|] == sends;
    }
  }

  /** The DATA messages that carry these payloads. */
  function Datas(k: nat, id: int32, payloads: seq<seq<byte>>): seq<Sent> {
    if payloads == [] then []
    else Datas(k, id, payloads[..|payloads| - 1]) + [Sent(SocketOf(k), DATA, id, payloads[|payloads| - 1], true)]
  }

  lemma DatasOfMore(k: nat, id: int32, payloads: seq<seq<byte>>, p: seq<byte>)
    ensures Datas(k, id, payloads + [p]) == Datas(k, id, payloads) + [Sent(SocketOf(k), DATA, id, p, true)]
  {
    assert (payloads + [p])[..|payloads|] == payloads;
  }

  function ButLast(got: seq<seq<byte>>): seq<seq<byte>> {
    if got == [] then [] else got[..|got| - 1]
  }

  /** What a reader has read and what it has sent, by its position: all that it has read, but for what it is
      about to send; and in the end its STREAM_RESET, or what could not be sent. */
  predicate SendsWhatItReads(pc: SocketPc, got: seq<seq<byte>>, sent: seq<Sent>, k: nat, id: int32) {
    match pc
    case SRead => sent == Datas(k, id, got)
    case SErrStop => sent == Datas(k, id, got)
    case SErrWant => sent == Datas(k, id, got)
    case SErrHold => sent == Datas(k, id, got)
    case SSendWant(d) => got != [] && got[|got| - 1] == d && sent == Datas(k, id, ButLast(got))
    case SSendHold(d) => got != [] && got[|got| - 1] == d && sent == Datas(k, id, ButLast(got))
    case _ =>
      || sent == Datas(k, id, got) + [Sent(SocketOf(k), STREAM_RESET, id, [], true)]
      || sent == Datas(k, id, got) + [Sent(SocketOf(k), STREAM_RESET, id, [], false)]
      || (got != [] && sent == Datas(k, id, ButLast(got)) + [Sent(SocketOf(k), DATA, id, got[|got| - 1], false)])
  }

  ghost predicate SocketSends(s: State, k: nat) {
    && k < |s.sockets| && k < |s.socketPc| && k < |s.socketIds|
    && SendsWhatItReads(s.socketPc[k], s.sockets[k].got, From(s.sends, SocketOf(k)), k, s.socketIds[k])
  }

  ghost predicate SocketsSend(s: State) {
    && (forall k :: 0 <= k < |s.sockets| ==> SocketSends(s, k))
    && (forall q :: 0 <= q < |s.sends| && s.sends[q].sender.SocketOf? ==> s.sends[q].sender.k < |s.sockets|)
  }

  // ---------------------------------------------------------------------------
  //  Steps
  // ---------------------------------------------------------------------------

  function SentBy(a: Act): seq<Sent> {
    if a.DropMutex? then [a.sent] else []
  }

  lemma StepWrites(env: Env, s: State, t: Tid, c: Choice)
    ensures var n, sent := Step(env, s, t, c), SentBy(ActionOf(env, s, t, c));
            n.sends == s.sends + sent && |sent| <= 1 && (sent != [] ==> sent[0].sender == t)
  {
    StepSends(env, s, t, c);
    assert s.sends + [] == s.sends;
  }

  /** What one move of a reader does to what it has read and sent. */
  lemma MoveSends(pc: SocketPc, got: seq<seq<byte>>, sent: seq<Sent>, k: nat, id: int32, d: seq<byte>, ok: bool)
    requires SendsWhatItReads(pc, got, sent, k, id)
    ensures pc.SRead? ==> SendsWhatItReads(SSendWant(d), got + [d], sent, k, id)
    ensures pc.SSendHold? ==>
              SendsWhatItReads(if ok then SRead else SClose, got, sent + [Sent(SocketOf(k), DATA, id, pc.data, ok)],
                               k, id)
    ensures pc.SErrHold? ==>
              SendsWhatItReads(SClose, got, sent + [Sent(SocketOf(k), STREAM_RESET, id, [], ok)], k, id)
  {
    assert (got + [d])[..|got|] == got;
    if pc.SSendHold? {
      DatasOfMore(k, id, ButLast(got), pc.data);
      assert got == ButLast(got) + [pc.data];
    }
  }

  /** The moves of a reader. */
  predicate ReaderEdge(pc: SocketPc, next: SocketPc, got: seq<seq<byte>>, got': seq<seq<byte>>, sent: seq<Sent>,
                       k: nat, id: int32, ok: bool) {
    match pc
    case SRead =>
      sent == [] && ((next.SSendWant? && got' == got + [next.data]) || (next.SErrStop? && got' == got))
    case SSendWant(d) => sent == [] && got' == got && (next == pc || next == SSendHold(d))
    case SSendHold(d) =>
      got' == got && next == (if ok then SRead else SClose) && sent == [Sent(SocketOf(k), DATA, id, d, ok)]
    case SErrStop => sent == [] && got' == got && next.SErrWant?
    case SErrWant => sent == [] && got' == got && (next.SErrWant? || next.SErrHold?)
    case SErrHold => got' == got && next.SClose? && sent == [Sent(SocketOf(k), STREAM_RESET, id, [], ok)]
    case _ => sent == [] && got' == got && (next.SClose? || next.SFinish? || next.SDone?)
  }

  lemma SocketTakesEdge(env: Env, s: State, k: nat, c: Choice)
    requires k < |s.sockets| && k < |s.socketPc| && k < |s.socketIds|
    ensures var n := SocketStep(s, k, c);
            && k < |n.sockets| && k < |n.socketPc| && n.socketIds == s.socketIds
            && ReaderEdge(s.socketPc[k], n.socketPc[k], s.sockets[k].got, n.sockets[k].got,
                          SentBy(ActionOf(env, s, SocketOf(k), c)), k, s.socketIds[k], c.ok)
  {
  }

  lemma EdgeSends(pc: SocketPc, next: SocketPc, got: seq<seq<byte>>, got': seq<seq<byte>>, sent: seq<Sent>,
                  more: seq<Sent>, k: nat, id: int32, ok: bool)
    requires SendsWhatItReads(pc, got, sent, k, id) && ReaderEdge(pc, next, got, got', more, k, id, ok)
    ensures SendsWhatItReads(next, got', if more == [] then sent else sent + more, k, id)
  {
    MoveSends(pc, got, sent, k, id, if next.SSendWant? then next.data else [], ok);
  }

  lemma OwnStepKeepsSends(env: Env, s: State, k: nat, c: Choice)
    requires SocketSends(s, k)
    ensures SocketSends(SocketStep(s, k, c), k)
  {
    var n, more := SocketStep(s, k, c), SentBy(ActionOf(env, s, SocketOf(k), c));
    SocketTakesEdge(env, s, k, c);
    StepWrites(env, s, SocketOf(k), c);
    FromOfMore(s.sends, more, SocketOf(k));
    EdgeSends(s.socketPc[k], n.socketPc[k], s.sockets[k].got, n.sockets[k].got, From(s.sends, SocketOf(k)), more,
              k, s.socketIds[k], c.ok);
  }

  lemma OthersLeaveGot(env: Env, s: State, t: Tid, c: Choice, k: nat)
    requires k < |s.sockets| && t != SocketOf(k)
    ensures k < |Step(env, s, t, c).sockets| && Step(env, s, t, c).sockets[k].got == s.sockets[k].got
  {
    StepActs(env, s, t, c);
  }

  lemma OtherStepKeepsSends(env: Env, s: State, t: Tid, c: Choice, k: nat)
    requires SameLengths(s) && SocketSends(s, k) && t != SocketOf(k)
    ensures SocketSends(Step(env, s, t, c), k)
  {
    StepKeepsIds(env, s, t, c);
    OthersLeaveGot(env, s, t, c, k);
    StepLeavesOtherSockets(env, s, t, c, k);
    StepWrites(env, s, t, c);
    FromOfMore(s.sends, SentBy(ActionOf(env, s, t, c)), SocketOf(k));
    assert From(s.sends, SocketOf(k)) + [] == From(s.sends, SocketOf(k));
  }

  lemma NewSocketsAreFresh(env: Env, s: State, t: Tid, c: Choice, k: nat)
    requires SameLengths(s) && |s.sockets| <= k < |Step(env, s, t, c).sockets|
    ensures Step(env, s, t, c).sockets[k] == FRESH_SOCKET
    ensures k < |Step(env, s, t, c).socketPc| ==> Step(env, s, t, c).socketPc[k].SRead?
  {
    StepActs(env, s, t, c);
    StepAppendsReaders(env, s, t, c);
  }

  lemma StepAppendsReaders(env: Env, s: State, t: Tid, c: Choice)
    ensures var n := Step(env, s, t, c);
            forall k :: |s.socketPc| <= k < |n.socketPc| ==> n.socketPc[k].SRead?
  {
  }

  lemma {:induction false} NothingFrom(sends: seq<Sent>, sender: Tid)
    requires forall q :: 0 <= q < |sends| ==> sends[q].sender != sender
    ensures From(sends, sender) == []
  {
    if sends != [] {
      NothingFrom(sends[..|sends| - 1], sender);
    }
  }

  lemma FreshSends(env: Env, s: State, t: Tid, c: Choice, k: nat)
    requires SameLengths(s) && SameLengths(Step(env, s, t, c)) && SocketsSend(s)
    requires |s.sockets| <= k < |Step(env, s, t, c).sockets|
    ensures SocketSends(Step(env, s, t, c), k)
  {
    NewSocketsAreFresh(env, s, t, c, k);
    StepWrites(env, s, t, c);
    SendersExist(env, s, t, c);
    NothingFrom(Step(env, s, t, c).sends, SocketOf(k));
  }

  /** A reader that sends is there before. */
  lemma SendersExist(env: Env, s: State, t: Tid, c: Choice)
    requires SocketsSend(s)
    ensures var n := Step(env, s, t, c);
            && |s.sockets| <= |n.sockets|
            && forall q :: 0 <= q < |n.sends| && n.sends[q].sender.SocketOf? ==> n.sends[q].sender.k < |s.sockets|
  {
    StepWrites(env, s, t, c);
    StepActs(env, s, t, c);
    assert SentBy(ActionOf(env, s, t, c)) != [] && t.SocketOf? ==> t.k < |s.sockets|;
  }

  lemma StepKeepsSends(env: Env, s: State, t: Tid, c: Choice)
    requires SameLengths(s) && SameLengths(Step(env, s, t, c)) && SocketsSend(s)
    ensures SocketsSend(Step(env, s, t, c))
  {
    var n := Step(env, s, t, c);
    SendersExist(env, s, t, c);
    forall k | 0 <= k < |n.sockets| ensures SocketSends(n, k) {
      if k >= |s.sockets| {
        FreshSends(env, s, t, c, k);
      } else if t == SocketOf(k) {
        OwnStepKeepsSends(env, s, k, c);
      } else {
        OtherStepKeepsSends(env, s, t, c, k);
      }
    }
  }

  lemma {:induction false} RunKeepsSends(env: Env, s: State, schedule: seq<(Tid, Choice)>)
    requires Inv(s) && SocketsSend(s)
    ensures SocketsSend(Run(env, s, schedule))
    decreases |schedule|
  {
    if schedule != [] {
      StepKeepsInv(env, s, schedule[0].0, schedule[0].1);
      StepKeepsSends(env, s, schedule[0].0, schedule[0].1);
      RunKeepsSends(env, Step(env, s, schedule[0].0, schedule[0].1), schedule[1..]);
    }
  }

  /** In every reachable state, in either mode: the messages that the reader of a socket has sent are DATA
      messages of its stream with what it has read, each read once and in order, all of them but for the
      one in its hands; in the end there follows one STREAM_RESET, unless the last could not be sent. */
  lemma ReadersSendWhatTheyRead(env: Env, schedule: seq<(Tid, Choice)>, k: nat)
    requires k < |Run(env, INIT, schedule).sockets|
    ensures var s := Run(env, INIT, schedule);
            && k < |s.socketPc| && k < |s.socketIds|
            && SendsWhatItReads(s.socketPc[k], s.sockets[k].got, From(s.sends, SocketOf(k)), k, s.socketIds[k])
  {
    InvInit();
    RunKeepsSends(env, INIT, schedule);
    assert SocketSends(Run(env, INIT, schedule), k);
  }

  // ---------------------------------------------------------------------------
  //  Who sends what
  // ---------------------------------------------------------------------------

  /** Only readers send DATA, and those only on their own stream; only workers, readers and the read loop
      reset; only the handlers of accepted connections start. */
  predicate KindOf(m: Sent, workerIds: seq<int32>, socketIds: seq<int32>) {
    match m.sender
    case ReadLoop => m.messageType == STREAM_RESET
    case WorkerOf(w) => w < |workerIds| && m.messageType == STREAM_RESET && m.streamId == workerIds[w]
    case SocketOf(k) =>
      k < |socketIds| && m.streamId == socketIds[k] && (m.messageType == DATA || m.messageType == STREAM_RESET)
    case AcceptorOf(_) => m.messageType == STREAM_START
    case _ => false
  }

  ghost predicate KindsOk(sends: seq<Sent>, workerIds: seq<int32>, socketIds: seq<int32>) {
    forall q :: 0 <= q < |sends| ==> KindOf(sends[q], workerIds, socketIds)
  }

  lemma SendsItsKind(env: Env, s: State, t: Tid, c: Choice)
    ensures forall m :: m in SentBy(ActionOf(env, s, t, c)) ==> KindOf(m, s.workerIds, s.socketIds)
  {
  }

  lemma StepKeepsKinds(env: Env, s: State, t: Tid, c: Choice)
    requires KindsOk(s.sends, s.workerIds, s.socketIds)
    ensures var n := Step(env, s, t, c); KindsOk(n.sends, n.workerIds, n.socketIds)
  {
    var n, sent := Step(env, s, t, c), SentBy(ActionOf(env, s, t, c));
    StepKeepsIds(env, s, t, c);
    StepWrites(env, s, t, c);
    SendsItsKind(env, s, t, c);
    forall q | 0 <= q < |n.sends| ensures KindOf(n.sends[q], n.workerIds, n.socketIds) {
      if q < |s.sends| {
        assert KindOf(s.sends[q], s.workerIds, s.socketIds);
      } else {
        assert n.sends[q] in sent;
      }
    }
  }

  lemma {:induction false} RunKeepsKinds(env: Env, s: State, schedule: seq<(Tid, Choice)>)
    requires KindsOk(s.sends, s.workerIds, s.socketIds)
    ensures var n := Run(env, s, schedule); KindsOk(n.sends, n.workerIds, n.socketIds)
    decreases |schedule|
  {
    if schedule != [] {
      StepKeepsKinds(env, s, schedule[0].0, schedule[0].1);
      RunKeepsKinds(env, Step(env, s, schedule[0].0, schedule[0].1), schedule[1..]);
    }
  }

  // ---------------------------------------------------------------------------
  //  One stream
  // ---------------------------------------------------------------------------

  predicate IsSentData(m: Sent, id: int32) {
    m.messageType == DATA && m.streamId == id && m.ok
  }

  /** The payloads of the DATA messages of a stream, in the order in which they were sent. */
  function DataOn(sends: seq<Sent>, id: int32): seq<seq<byte>> {
    if sends == [] then []
    else
      var m := sends[|sends| - 1];
      DataOn(sends[..|sends| - 1], id) + if IsSentData(m, id) then [m.payload] else []
  }

  lemma DataOnMore(sends: seq<Sent>, m: Sent, id: int32)
    ensures DataOn(sends + [m], id)
         == DataOn(sends, id) + if IsSentData(m, id) then [m.payload] else []
  {
    assert (sends + [m])[..|sends|] == sends;
  }

  /** A stream with one socket has the messages of that socket's reader. */
  lemma {:induction false} DataIsFromReader(sends: seq<Sent>, workerIds: seq<int32>, socketIds: seq<int32>, k: nat)
    requires KindsOk(sends, workerIds, socketIds)
    requires k < |socketIds| && PipelineDelivery.Unique(socketIds, socketIds[k])
    ensures DataOn(sends, socketIds[k]) == DataOn(From(sends, SocketOf(k)), socketIds[k])
  {
    if sends != [] {
      var rest, m := sends[..|sends| - 1], sends[|sends| - 1];
      DataIsFromReader(rest, workerIds, socketIds, k);
      assert KindOf(m, workerIds, socketIds);
      if m.sender == SocketOf(k) {
        DataOnMore(From(rest, SocketOf(k)), m, socketIds[k]);
      } else {
        assert !IsSentData(m, socketIds[k]);
        assert From(sends, SocketOf(k)) == From(rest, SocketOf(k));
        assert DataOn(sends, socketIds[k]) == DataOn(rest, socketIds[k]);
      }
    }
  }

  lemma {:induction false} DataOnDatas(k: nat, id: int32, payloads: seq<seq<byte>>)
    ensures DataOn(Datas(k, id, payloads), id) == payloads
  {
    if payloads != [] {
      var p := payloads[|payloads| - 1];
      DataOnDatas(k, id, ButLast(payloads));
      DataOnMore(Datas(k, id, ButLast(payloads)), Sent(SocketOf(k), DATA, id, p, true), id);
      assert payloads == ButLast(payloads) + [p];
    }
  }

  lemma DataOfReader(pc: SocketPc, got: seq<seq<byte>>, sent: seq<Sent>, k: nat, id: int32)
    requires SendsWhatItReads(pc, got, sent, k, id)
    ensures DataOn(sent, id) == got || (!pc.SRead? && got != [] && DataOn(sent, id) == ButLast(got))
  {
    DataOnDatas(k, id, got);
    DataOnDatas(k, id, ButLast(got));
    DataOnMore(Datas(k, id, got), Sent(SocketOf(k), STREAM_RESET, id, [], true), id);
    DataOnMore(Datas(k, id, got), Sent(SocketOf(k), STREAM_RESET, id, [], false), id);
    if got != [] {
      DataOnMore(Datas(k, id, ButLast(got)), Sent(SocketOf(k), DATA, id, got[|got| - 1], false), id);
      assert ButLast(got) + [] == ButLast(got);
    }
    assert got + [] == got;
  }

  /** The mirror image of the delivery to local sockets, in either mode: if a stream has one socket, then
      the DATA payloads of the stream on the wire, by whomever sent and however mixed with other streams,
      are what was read from that socket, in order and each once, but for the last at most; and while the
      reader is reading they are all of it. */
  lemma OutboundDelivery(env: Env, schedule: seq<(Tid, Choice)>, k: nat)
    requires var s := Run(env, INIT, schedule);
             k < |s.sockets| && k < |s.socketIds| && PipelineDelivery.Unique(s.socketIds, s.socketIds[k])
    ensures var s := Run(env, INIT, schedule);
            var got, sent := s.sockets[k].got, DataOn(s.sends, s.socketIds[k]);
            && k < |s.socketPc|
            && (sent == got || (!s.socketPc[k].SRead? && got != [] && sent == got[..|got| - 1]))
  {
    var s := Run(env, INIT, schedule);
    ReadersSendWhatTheyRead(env, schedule, k);
    RunKeepsKinds(env, INIT, schedule);
    DataIsFromReader(s.sends, s.workerIds, s.socketIds, k);
    DataOfReader(s.socketPc[k], s.sockets[k].got, From(s.sends, SocketOf(k)), k, s.socketIds[k]);
  }

  // ---------------------------------------------------------------------------
  //  STREAM_START comes first
  // ---------------------------------------------------------------------------

  predicate IsStartOf(m: Sent, id: int32) {
    m.messageType == STREAM_START && m.streamId == id && m.ok
  }

  ghost predicate StartedOn(sends: seq<Sent>, id: int32) {
    exists q :: 0 <= q < |sends| && IsStartOf(sends[q], id)
  }

  /** A STREAM_START of the stream has been heard or sent. */
  ghost predicate Known(heard: seq<TunnelMessage>, sends: seq<Sent>, id: int32) {
    PipelineDelivery.Started(heard, id) || StartedOn(sends, id)
  }

  ghost predicate OpenedAreKnown(heard: seq<TunnelMessage>, read: ReadPc, acceptors: seq<AcceptPc>,
                                 socketIds: seq<int32>, sends: seq<Sent>) {
    && (forall id :: PipelineDelivery.Opening(read, id) ==> PipelineDelivery.Started(heard, id))
    && (forall i :: 0 <= i < |acceptors| && acceptors[i].ASockStart? ==> StartedOn(sends, acceptors[i].id))
    && (forall k :: 0 <= k < |socketIds| ==> Known(heard, sends, socketIds[k]))
  }

  /** Each DATA message is sent behind a STREAM_START that was sent, or one has been heard. */
  ghost predicate DataIsKnown(heard: seq<TunnelMessage>, sends: seq<Sent>) {
    forall q :: 0 <= q < |sends| && sends[q].messageType == DATA ==> Known(heard, sends[..q], sends[q].streamId)
  }

  ghost predicate StartsFirst(env: Env, s: State) {
    && s.pos <= |env.input|
    && OpenedAreKnown(env.input[..s.pos], s.read, s.acceptors, s.socketIds, s.sends)
    && DataIsKnown(env.input[..s.pos], s.sends)
  }

  lemma KnownOfMore(heard: seq<TunnelMessage>, heard': seq<TunnelMessage>, sends: seq<Sent>, sends': seq<Sent>,
                    id: int32)
    requires heard <= heard' && sends <= sends'
    ensures Known(heard, sends, id) ==> Known(heard', sends', id)
    ensures PipelineDelivery.Started(heard, id) ==> PipelineDelivery.Started(heard', id)
    ensures StartedOn(sends, id) ==> StartedOn(sends', id)
  {
    if i :| 0 <= i < |heard| && PipelineDelivery.IsStart(heard[i], id) {
      assert PipelineDelivery.IsStart(heard'[i], id);
    }
    if q :| 0 <= q < |sends| && IsStartOf(sends[q], id) {
      assert IsStartOf(sends'[q], id);
    }
  }

  lemma StepHears(env: Env, s: State, t: Tid, c: Choice)
    requires s.pos <= |env.input|
    ensures var n := Step(env, s, t, c);
            && s.pos <= n.pos <= |env.input| && n.pos <= s.pos + 1
            && (n.pos > s.pos ==> n.read == Dispatch(env.input[s.pos]))
            && (n.pos == s.pos ==>
                  forall id :: PipelineDelivery.Opening(n.read, id) ==> PipelineDelivery.Opening(s.read, id))
  {
    if !t.ReadLoop? {
      OthersLeaveReading(env, s, t, c);
    }
  }

  lemma AcceptorHasSent(env: Env, s: State, t: Tid, c: Choice, i: nat)
    requires i < |Step(env, s, t, c).acceptors| && Step(env, s, t, c).acceptors[i].ASockStart?
    ensures var n := Step(env, s, t, c);
            || (i < |s.acceptors| && s.acceptors[i] == n.acceptors[i])
            || n.sends == s.sends + [Sent(AcceptorOf(i), STREAM_START, n.acceptors[i].id, [], true)]
  {
    if i < |s.acceptors| && t != AcceptorOf(i) {
      StepLeavesOtherAcceptors(env, s, t, c, i);
    }
  }

  lemma HeardStart(input: seq<TunnelMessage>, pos: nat, id: int32)
    requires pos < |input| && PipelineDelivery.Opening(Dispatch(input[pos]), id)
    ensures PipelineDelivery.Started(input[..pos + 1], id)
  {
    assert PipelineDelivery.IsStart(input[..pos + 1][pos], id);
  }

  lemma StepKeepsOpened(env: Env, s: State, t: Tid, c: Choice)
    requires StartsFirst(env, s)
    ensures var n := Step(env, s, t, c);
            n.pos <= |env.input| && OpenedAreKnown(env.input[..n.pos], n.read, n.acceptors, n.socketIds, n.sends)
  {
    var n := Step(env, s, t, c);
    StepHears(env, s, t, c);
    StepWrites(env, s, t, c);
    NewSocketIsOpened(env, s, t, c);
    var heard, heard' := env.input[..s.pos], env.input[..n.pos];
    forall id | PipelineDelivery.Opening(n.read, id) ensures PipelineDelivery.Started(heard', id) {
      if n.pos > s.pos {
        HeardStart(env.input, s.pos, id);
      }
    }
    forall i | 0 <= i < |n.acceptors| && n.acceptors[i].ASockStart? ensures StartedOn(n.sends, n.acceptors[i].id) {
      AcceptorHasSent(env, s, t, c, i);
      KnownOfMore(heard, heard', s.sends, n.sends, n.acceptors[i].id);
      assert n.sends != s.sends ==> n.sends[|s.sends|] == SentBy(ActionOf(env, s, t, c))[0];
      assert n.sends == s.sends + [Sent(AcceptorOf(i), STREAM_START, n.acceptors[i].id, [], true)] ==>
          IsStartOf(n.sends[|s.sends|], n.acceptors[i].id);
    }
    forall k | 0 <= k < |n.socketIds| ensures Known(heard', n.sends, n.socketIds[k]) {
      assert k < |s.socketIds| ==> Known(heard, s.sends, s.socketIds[k]);
      KnownOfMore(heard, heard', s.sends, n.sends, n.socketIds[k]);
    }
  }

  lemma StepKeepsDataKnown(env: Env, s: State, t: Tid, c: Choice)
    requires StartsFirst(env, s)
    ensures var n := Step(env, s, t, c); n.pos <= |env.input| && DataIsKnown(env.input[..n.pos], n.sends)
  {
    var n, sent := Step(env, s, t, c), SentBy(ActionOf(env, s, t, c));
    StepHears(env, s, t, c);
    StepWrites(env, s, t, c);
    SendsItsKind(env, s, t, c);
    var heard, heard' := env.input[..s.pos], env.input[..n.pos];
    forall q | 0 <= q < |n.sends| && n.sends[q].messageType == DATA
      ensures Known(heard', n.sends[..q], n.sends[q].streamId)
    {
      KnownOfMore(heard, heard', n.sends[..q], n.sends[..q], n.sends[q].streamId);
      if q < |s.sends| {
        assert n.sends[..q] == s.sends[..q] && n.sends[q] == s.sends[q];
      } else {
        assert n.sends[..q] == s.sends && n.sends[q] == sent[0] && sent[0] in sent;
        assert KindOf(sent[0], s.workerIds, s.socketIds);
      }
    }
  }

  lemma {:induction false} RunKeepsStartsFirst(env: Env, s: State, schedule: seq<(Tid, Choice)>)
    requires StartsFirst(env, s)
    ensures StartsFirst(env, Run(env, s, schedule))
    decreases |schedule|
  {
    if schedule != [] {
      StepKeepsOpened(env, s, schedule[0].0, schedule[0].1);
      StepKeepsDataKnown(env, s, schedule[0].0, schedule[0].1);
      RunKeepsStartsFirst(env, Step(env, s, schedule[0].0, schedule[0].1), schedule[1..]);
    }
  }

  /** In every reachable state, in either mode: a DATA message is sent behind a STREAM_START of its
      stream that was sent, or the proxy has heard one. */
  lemma StartComesFirst(env: Env, schedule: seq<(Tid, Choice)>, q: nat)
    requires q < |Run(env, INIT, schedule).sends| && Run(env, INIT, schedule).sends[q].messageType == DATA
    ensures var s := Run(env, INIT, schedule);
            && s.pos <= |env.input|
            && (|| PipelineDelivery.Started(env.input[..s.pos], s.sends[q].streamId)
                || StartedOn(s.sends[..q], s.sends[q].streamId))
  {
    RunKeepsStartsFirst(env, INIT, schedule);
  }
}
