/** When a stream is given up: after a reset, a failed write, a failed read or a failed start, the worker is
    taken down. workerManager.stop only starts a goroutine, so what holds is that somebody is at it, until
    the worker is no longer the one of its stream. */
module PipelineStops {
  import opened Protobuf
  import opened Pipeline
  import opened PipelineInvariants
  import opened PipelineProofs
  import opened PipelineResets
  import PipelineDelivery

  // ---------------------------------------------------------------------------
  //  A stop that was asked for
  // ---------------------------------------------------------------------------

  predicate IsStopping(pc: StopPc, id: int32) {
    !pc.PDone? && pc.id == id
  }

  /** The worker is not, or no longer, the one of its stream, or a stopper of the stream is on its way. */
  ghost predicate StopAsked(s: State, w: nat) {
    && w < |s.workerIds|
    && (!Registered(w, s.workerIds, s.workerMap)
        || exists i :: 0 <= i < |s.stoppers| && IsStopping(s.stoppers[i], s.workerIds[w]))
  }

  /** A worker that has lost its stream does not get it back. */
  lemma StepUnregisters(env: Env, s: State, t: Tid, c: Choice, w: nat)
    requires w < |s.workerIds| && !Registered(w, s.workerIds, s.workerMap)
    ensures var n := Step(env, s, t, c); !Registered(w, n.workerIds, n.workerMap)
  {
    StepActs(env, s, t, c);
    StepKeepsIds(env, s, t, c);
  }

  /** A stopper of a stream is done only when the map does not name the stream. */
  lemma StopperEnds(s: State, i: nat, id: int32)
    requires i < |s.stoppers| && IsStopping(s.stoppers[i], id)
    ensures var n := StopperStep(s, i); i < |n.stoppers| && (IsStopping(n.stoppers[i], id) || id !in n.workerMap)
  {
  }

  lemma StepLeavesOtherStoppers(env: Env, s: State, t: Tid, c: Choice, i: nat)
    requires i < |s.stoppers| && t != StopperOf(i)
    ensures var n := Step(env, s, t, c); i < |n.stoppers| && n.stoppers[i] == s.stoppers[i]
  {
  }

  lemma StepKeepsAsked(env: Env, s: State, t: Tid, c: Choice, w: nat)
    requires StopAsked(s, w)
    ensures StopAsked(Step(env, s, t, c), w)
  {
    StepKeepsIds(env, s, t, c);
    if !Registered(w, s.workerIds, s.workerMap) {
      StepUnregisters(env, s, t, c, w);
    } else {
      var i :| 0 <= i < |s.stoppers| && IsStopping(s.stoppers[i], s.workerIds[w]);
      if t == StopperOf(i) {
        StopperEnds(s, i, s.workerIds[w]);
      } else {
        StepLeavesOtherStoppers(env, s, t, c, i);
      }
      assert IsStopping(Step(env, s, t, c).stoppers[i], s.workerIds[w])
          || s.workerIds[w] !in Step(env, s, t, c).workerMap;
    }
  }

  /** workerManager.stop asks for all workers of the stream that there are. */
  lemma SpawnAsks(env: Env, s: State, t: Tid, c: Choice, w: nat)
    requires w < |s.workerIds| && ActionOf(env, s, t, c) == Spawn(s.workerIds[w])
    ensures StopAsked(Step(env, s, t, c), w)
  {
    StepKeepsIds(env, s, t, c);
    SpawnAppends(env, s, t, c, s.workerIds[w]);
    assert IsStopping(Step(env, s, t, c).stoppers[|s.stoppers|], s.workerIds[w]);
  }

  lemma SpawnAppends(env: Env, s: State, t: Tid, c: Choice, id: int32)
    requires ActionOf(env, s, t, c) == Spawn(id)
    ensures Step(env, s, t, c).stoppers == s.stoppers + [PWant(id)]
  {
  }

  // ---------------------------------------------------------------------------
  //  Workers that have reset their stream
  // ---------------------------------------------------------------------------

  /** The worker has run a STREAM_RESET, or is sending one. */
  predicate GivesUp(worker: Worker, pc: WorkerPc) {
    ResetJob in worker.done || pc == WFinish(ResetJob) || pc.WSendWant? || pc.WSendHold?
  }

  /** The thread has called sendMessage with a message of the type, successfully or not. */
  ghost predicate HasSent(sends: seq<Sent>, sender: Tid, messageType: int32) {
    exists q :: 0 <= q < |sends| && sends[q].sender == sender && sends[q].messageType == messageType
  }

  ghost predicate AsksWhenGivingUp(s: State, w: nat) {
    && w < |s.workers| && w < |s.workerPc| && w < |s.workerIds|
    && (GivesUp(s.workers[w], s.workerPc[w]) || HasSent(s.sends, WorkerOf(w), STREAM_RESET) ==> StopAsked(s, w))
  }

  ghost predicate WorkersAsk(s: State) {
    && (forall w :: 0 <= w < |s.workers| ==> AsksWhenGivingUp(s, w))
    && (forall q :: 0 <= q < |s.sends| && s.sends[q].sender.WorkerOf? ==> s.sends[q].sender.w < |s.workers|)
  }

  /** A worker gives up by calling stop. */
  lemma WorkerGivesUp(s: State, w: nat, c: Choice)
    requires w < |s.workers| && w < |s.workerPc| && w < |s.workerIds|
    ensures var n := WorkerStep(s, w, c);
            && w < |n.workers| && w < |n.workerPc|
            && (GivesUp(n.workers[w], n.workerPc[w]) ==>
                  GivesUp(s.workers[w], s.workerPc[w])
                  || (WorkerMove(s, w, c).Go? && WorkerMove(s, w, c).act == Spawn(s.workerIds[w])))
  {
    WorkerEdge(s, w, c);
  }

  /** Who sends. */
  lemma StepSends(env: Env, s: State, t: Tid, c: Choice)
    ensures var n, a := Step(env, s, t, c), ActionOf(env, s, t, c);
            && n.sends == (if a.DropMutex? then s.sends + [a.sent] else s.sends)
            && (a.DropMutex? ==> a.sent.sender == t)
            && (a.DropMutex? && t.WorkerOf? ==> t.w < |s.workerPc| && s.workerPc[t.w].WSendHold?)
  {
    StepActs(env, s, t, c);
  }

  lemma SentOrNot(s: State, n: State, a: Act, sender: Tid, messageType: int32)
    requires n.sends == if a.DropMutex? then s.sends + [a.sent] else s.sends
    ensures HasSent(n.sends, sender, messageType) ==>
              HasSent(s.sends, sender, messageType) || (a.DropMutex? && a.sent.sender == sender)
  {
  }

  lemma StepKeepsAsks(env: Env, s: State, t: Tid, c: Choice, w: nat)
    requires SameLengths(s) && AsksWhenGivingUp(s, w)
    ensures AsksWhenGivingUp(Step(env, s, t, c), w)
  {
    var n := Step(env, s, t, c);
    StepKeepsIds(env, s, t, c);
    StepSends(env, s, t, c);
    SentOrNot(s, n, ActionOf(env, s, t, c), WorkerOf(w), STREAM_RESET);
    if StopAsked(s, w) {
      StepKeepsAsked(env, s, t, c, w);
    }
    if t == WorkerOf(w) {
      WorkerGivesUp(s, w, c);
      if ActionOf(env, s, t, c) == Spawn(s.workerIds[w]) {
        SpawnAsks(env, s, t, c, w);
      }
    }
    if t != WorkerOf(w) {
      OthersOnlyEnqueue(env, s, t, c, w);
      StepLeavesOtherPcs(env, s, t, c, w);
    }
  }

  lemma NewWorkersAskNothing(env: Env, s: State, t: Tid, c: Choice, w: nat)
    requires SameLengths(s) && SameLengths(Step(env, s, t, c)) && WorkersAsk(s)
    requires |s.workers| <= w < |Step(env, s, t, c).workers|
    ensures AsksWhenGivingUp(Step(env, s, t, c), w)
  {
    NewWorkersAreFresh(env, s, t, c, w);
    StepSends(env, s, t, c);
    SentOrNot(s, Step(env, s, t, c), ActionOf(env, s, t, c), WorkerOf(w), STREAM_RESET);
  }

  lemma StepKeepsWorkersAsk(env: Env, s: State, t: Tid, c: Choice)
    requires SameLengths(s) && SameLengths(Step(env, s, t, c)) && WorkersAsk(s)
    ensures WorkersAsk(Step(env, s, t, c))
  {
    var n := Step(env, s, t, c);
    StepKeepsIds(env, s, t, c);
    StepSends(env, s, t, c);
    forall w | 0 <= w < |n.workers| ensures AsksWhenGivingUp(n, w) {
      if w < |s.workers| {
        StepKeepsAsks(env, s, t, c, w);
      } else {
        NewWorkersAskNothing(env, s, t, c, w);
      }
    }
  }

  lemma {:induction false} RunKeepsWorkersAsk(env: Env, s: State, schedule: seq<(Tid, Choice)>)
    requires Inv(s) && WorkersAsk(s)
    ensures WorkersAsk(Run(env, s, schedule))
    decreases |schedule|
  {
    if schedule != [] {
      StepKeepsInv(env, s, schedule[0].0, schedule[0].1);
      StepKeepsWorkersAsk(env, s, schedule[0].0, schedule[0].1);
      RunKeepsWorkersAsk(env, Step(env, s, schedule[0].0, schedule[0].1), schedule[1..]);
    }
  }

  /** In every reachable state, in either mode: a worker that has executed a STREAM_RESET, or has sent one
      because a write failed, is not the worker of its stream any more, or a goroutine is on its way to take
      it down. */
  lemma ResetsAreFollowedByStop(env: Env, schedule: seq<(Tid, Choice)>, w: nat)
    requires var s := Run(env, INIT, schedule);
             && w < |s.workers|
             && (ResetJob in s.workers[w].done || HasSent(s.sends, WorkerOf(w), STREAM_RESET))
    ensures StopAsked(Run(env, INIT, schedule), w)
  {
    InvInit();
    RunKeepsWorkersAsk(env, INIT, schedule);
    assert AsksWhenGivingUp(Run(env, INIT, schedule), w);
  }

  // ---------------------------------------------------------------------------
  //  Sockets whose reading failed
  // ---------------------------------------------------------------------------

  /** Past reading: it reports an error, or closes its connection, or has ended. */
  predicate PastReading(pc: SocketPc) {
    pc.SErrWant? || pc.SErrHold? || pc.SClose? || pc.SFinish? || pc.SDone?
  }

  /** A DATA message of the reader could not be sent, which ends it without a report. */
  ghost predicate SendFailed(sends: seq<Sent>, k: nat) {
    exists q :: 0 <= q < |sends| && sends[q].sender == SocketOf(k) && sends[q].messageType == DATA && !sends[q].ok
  }

  ghost predicate AsksWhenReadFails(s: State, k: nat, w: nat) {
    && k < |s.socketPc| && k < |s.socketIds| && w < |s.workerIds| && s.workerIds[w] == s.socketIds[k]
    && (PastReading(s.socketPc[k]) ==> SendFailed(s.sends, k) || StopAsked(s, w))
  }

  /** A reader stops reading by calling stop, or because it could not send. */
  lemma SocketGivesUp(env: Env, s: State, k: nat, c: Choice)
    requires k < |s.sockets| && k < |s.socketPc| && k < |s.socketIds|
    ensures var n, a := SocketStep(s, k, c), ActionOf(env, s, SocketOf(k), c);
            && k < |n.socketPc|
            && (PastReading(n.socketPc[k]) ==>
                  || PastReading(s.socketPc[k]) || a == Spawn(s.socketIds[k])
                  || (a.DropMutex? && a.sent.sender == SocketOf(k) && a.sent.messageType == DATA && !a.sent.ok))
  {
  }

  lemma StepLeavesOtherSockets(env: Env, s: State, t: Tid, c: Choice, k: nat)
    requires SameLengths(s) && k < |s.socketPc| && t != SocketOf(k)
    ensures var n := Step(env, s, t, c); k < |n.socketPc| && n.socketPc[k] == s.socketPc[k]
  {
  }

  lemma StepKeepsSendFailed(env: Env, s: State, t: Tid, c: Choice, k: nat)
    ensures SendFailed(s.sends, k) ==> SendFailed(Step(env, s, t, c).sends, k)
    ensures var a := ActionOf(env, s, t, c);
            a.DropMutex? && a.sent.sender == SocketOf(k) && a.sent.messageType == DATA && !a.sent.ok ==>
              SendFailed(Step(env, s, t, c).sends, k)
  {
    StepSends(env, s, t, c);
    var n := Step(env, s, t, c);
    if q :| 0 <= q < |s.sends| && s.sends[q].sender == SocketOf(k) && s.sends[q].messageType == DATA && !s.sends[q].ok {
      assert n.sends[q] == s.sends[q];
    }
    assert ActionOf(env, s, t, c).DropMutex? ==> n.sends[|s.sends|] == ActionOf(env, s, t, c).sent;
  }

  lemma StepKeepsReadFails(env: Env, s: State, t: Tid, c: Choice, k: nat, w: nat)
    requires SameLengths(s) && AsksWhenReadFails(s, k, w)
    ensures AsksWhenReadFails(Step(env, s, t, c), k, w)
  {
    StepKeepsIds(env, s, t, c);
    StepKeepsSendFailed(env, s, t, c, k);
    if StopAsked(s, w) {
      StepKeepsAsked(env, s, t, c, w);
    }
    if t == SocketOf(k) {
      SocketGivesUp(env, s, k, c);
      if ActionOf(env, s, t, c) == Spawn(s.socketIds[k]) {
        SpawnAsks(env, s, t, c, w);
      }
    }
    if t != SocketOf(k) {
      StepLeavesOtherSockets(env, s, t, c, k);
    }
  }

  lemma {:induction false} RunKeepsReadFails(env: Env, s: State, schedule: seq<(Tid, Choice)>, k: nat, w: nat)
    requires Inv(s) && AsksWhenReadFails(s, k, w)
    ensures AsksWhenReadFails(Run(env, s, schedule), k, w)
    decreases |schedule|
  {
    if schedule != [] {
      StepKeepsInv(env, s, schedule[0].0, schedule[0].1);
      StepKeepsReadFails(env, s, schedule[0].0, schedule[0].1, k, w);
      RunKeepsReadFails(env, Step(env, s, schedule[0].0, schedule[0].1), schedule[1..], k, w);
    }
  }

  /** In either mode: if the reader of a socket was reading at some moment and is past it at a later one,
      and not because it could not send, then each worker of the stream that was there at the first is at
      the second not the one of the stream any more, or being taken down. */
  lemma FailedReadsStopWorkers(env: Env, before: seq<(Tid, Choice)>, after: seq<(Tid, Choice)>, k: nat, w: nat)
    requires var s := Run(env, INIT, before);
             && k < |s.socketPc| && k < |s.socketIds| && w < |s.workerIds| && s.workerIds[w] == s.socketIds[k]
             && !PastReading(s.socketPc[k])
    requires var n := Run(env, Run(env, INIT, before), after);
             k < |n.socketPc| && PastReading(n.socketPc[k]) && !SendFailed(n.sends, k)
    ensures StopAsked(Run(env, Run(env, INIT, before), after), w)
  {
    InvInit();
    RunKeepsInv(env, INIT, before);
    RunKeepsReadFails(env, Run(env, INIT, before), after, k, w);
  }

  // ---------------------------------------------------------------------------
  //  STREAM_START
  // ---------------------------------------------------------------------------

  /** Some of the ids from the n-th on is this one. */
  ghost predicate HasNew(ids: seq<int32>, n: nat, id: int32) {
    exists x :: n <= x < |ids| && ids[x] == id
  }

  /** A new worker of the stream that is being taken down. */
  ghost predicate NewIsStopped(s: State, n: nat, id: int32) {
    exists w :: n <= w < |s.workerIds| && s.workerIds[w] == id && StopAsked(s, w)
  }

  /** The read loop is between the start of the worker and that of the socket, or on its way to give up. */
  predicate OpensOrGivesUp(read: ReadPc, id: int32) {
    read == RDial(id) || read == RSockStart(id) || read == RStop(id)
  }

  /** The read loop has sent, or tried to send, a STREAM_RESET of the stream. */
  ghost predicate ReadLoopReset(sends: seq<Sent>, id: int32) {
    exists q :: 0 <= q < |sends| && IsResetBy(sends[q], ReadLoop, id)
  }

  predicate IsResetBy(m: Sent, sender: Tid, id: int32) {
    m.sender == sender && m.messageType == STREAM_RESET && m.streamId == id
  }

  predicate Resets(read: ReadPc, id: int32) {
    read == RSendWant(id) || read == RSendHold(id)
  }

  /** What has come of the STREAM_START of message p, where there were that many workers and sockets. */
  ghost predicate StartComesTo(s: State, p: nat, id: int32, workers: nat, sockets: nat) {
    || s.pos <= p
    || (s.pos == p + 1 && s.read == RStart(id))
    || (&& HasNew(s.workerIds, workers, id)
        && (|| (s.pos == p + 1 && OpensOrGivesUp(s.read, id))
            || HasNew(s.socketIds, sockets, id)
            || (NewIsStopped(s, workers, id)
                && ((s.pos == p + 1 && Resets(s.read, id)) || ReadLoopReset(s.sends, id)))))
  }

  lemma StepKeepsNew(env: Env, s: State, t: Tid, c: Choice, workers: nat, sockets: nat, id: int32)
    ensures HasNew(s.workerIds, workers, id) ==> HasNew(Step(env, s, t, c).workerIds, workers, id)
    ensures HasNew(s.socketIds, sockets, id) ==> HasNew(Step(env, s, t, c).socketIds, sockets, id)
    ensures NewIsStopped(s, workers, id) ==> NewIsStopped(Step(env, s, t, c), workers, id)
    ensures ReadLoopReset(s.sends, id) ==> ReadLoopReset(Step(env, s, t, c).sends, id)
  {
    StepSends(env, s, t, c);
    StepKeepsIds(env, s, t, c);
    var n := Step(env, s, t, c);
    if x :| workers <= x < |s.workerIds| && s.workerIds[x] == id {
      assert n.workerIds[x] == id;
    }
    if x :| sockets <= x < |s.socketIds| && s.socketIds[x] == id {
      assert n.socketIds[x] == id;
    }
    if w :| workers <= w < |s.workerIds| && s.workerIds[w] == id && StopAsked(s, w) {
      StepKeepsAsked(env, s, t, c, w);
      assert n.workerIds[w] == id && StopAsked(n, w);
    }
    if q :| 0 <= q < |s.sends| && IsResetBy(s.sends[q], ReadLoop, id) {
      assert n.sends[q] == s.sends[q];
    }
  }

  /** How the read loop takes a STREAM_START further. */
  lemma ReadTakesStart(env: Env, s: State, c: Choice, id: int32)
    ensures var n := ReadStep(env, s, c);
            && (s.read == RStart(id) ==>
                  n == s || (n.read == RDial(id) && n.workerIds == s.workerIds + [id] && n.pos == s.pos))
            && (s.read == RDial(id) ==> OpensOrGivesUp(n.read, id) && n.pos == s.pos)
            && (s.read == RSockStart(id) ==>
                  n.pos == s.pos && (OpensOrGivesUp(n.read, id) || n.socketIds == s.socketIds + [id]))
            && (s.read == RStop(id) ==>
                  n.pos == s.pos && n.read == RSendWant(id) && ActionOf(env, s, ReadLoop, c) == Spawn(id))
            && (s.read == RSendWant(id) ==> n.pos == s.pos && Resets(n.read, id))
            && (s.read == RSendHold(id) ==>
                  n.sends == s.sends + [Sent(ReadLoop, STREAM_RESET, id, [], c.ok)])
            && (s.read.RNext? && s.pos < |env.input| && PipelineDelivery.IsStart(env.input[s.pos], id) ==>
                  n.pos == s.pos || (n.pos == s.pos + 1 && n.read == RStart(id)))
            && s.pos <= n.pos <= s.pos + 1 && (n.pos > s.pos ==> s.read.RNext? && s.pos < |env.input|)
  {
  }

  lemma ReadKeepsStart(env: Env, s: State, c: Choice, p: nat, id: int32, workers: nat, sockets: nat)
    requires workers <= |s.workerIds| && sockets <= |s.socketIds|
    requires p < |env.input| && PipelineDelivery.IsStart(env.input[p], id) && StartComesTo(s, p, id, workers, sockets)
    ensures StartComesTo(ReadStep(env, s, c), p, id, workers, sockets)
  {
    var n := ReadStep(env, s, c);
    StepKeepsNew(env, s, ReadLoop, c, workers, sockets, id);
    ReadTakesStart(env, s, c, id);
    if n.workerIds == s.workerIds + [id] {
      assert n.workerIds[|s.workerIds|] == id;
    }
    if n.socketIds == s.socketIds + [id] {
      assert n.socketIds[|s.socketIds|] == id;
    }
    if s.read == RSendHold(id) {
      assert n.sends[|s.sends|] == Sent(ReadLoop, STREAM_RESET, id, [], c.ok);
    }
    if s.read == RStop(id) && HasNew(s.workerIds, workers, id) {
      var w :| workers <= w < |s.workerIds| && s.workerIds[w] == id;
      SpawnAsks(env, s, ReadLoop, c, w);
      StepKeepsIds(env, s, ReadLoop, c);
      assert n.workerIds[w] == id && StopAsked(n, w);
    }
  }

  lemma StepKeepsStart(env: Env, s: State, t: Tid, c: Choice, p: nat, id: int32, workers: nat, sockets: nat)
    requires workers <= |s.workerIds| && sockets <= |s.socketIds|
    requires p < |env.input| && PipelineDelivery.IsStart(env.input[p], id) && StartComesTo(s, p, id, workers, sockets)
    ensures var n := Step(env, s, t, c);
            && workers <= |n.workerIds| && sockets <= |n.socketIds| && StartComesTo(n, p, id, workers, sockets)
  {
    StepKeepsIds(env, s, t, c);
    if t.ReadLoop? {
      ReadKeepsStart(env, s, c, p, id, workers, sockets);
    } else {
      OthersLeaveReading(env, s, t, c);
      StepKeepsNew(env, s, t, c, workers, sockets, id);
    }
  }

  lemma {:induction false} RunKeepsStart(env: Env, s: State, schedule: seq<(Tid, Choice)>,
                                         p: nat, id: int32, workers: nat, sockets: nat)
    requires workers <= |s.workerIds| && sockets <= |s.socketIds|
    requires p < |env.input| && PipelineDelivery.IsStart(env.input[p], id) && StartComesTo(s, p, id, workers, sockets)
    ensures StartComesTo(Run(env, s, schedule), p, id, workers, sockets)
    decreases |schedule|
  {
    if schedule != [] {
      var t, c := schedule[0].0, schedule[0].1;
      StepKeepsStart(env, s, t, c, p, id, workers, sockets);
      RunKeepsStart(env, Step(env, s, t, c), schedule[1..], p, id, workers, sockets);
    }
  }

  /** In either mode: a STREAM_START that has been handled has started a new worker for its stream, and
      either a new socket, or, if the service is unknown, cannot be reached, or the id is taken, a
      new worker is not the one of its stream any more or is being taken down, and a STREAM_RESET was sent or
      tried. */
  lemma StartsComeTo(env: Env, before: seq<(Tid, Choice)>, after: seq<(Tid, Choice)>, p: nat, id: int32)
    requires p < |env.input| && PipelineDelivery.IsStart(env.input[p], id) && Run(env, INIT, before).pos <= p
    requires var n := Run(env, Run(env, INIT, before), after); Handled(n.read, n.pos, p)
    ensures var s, n := Run(env, INIT, before), Run(env, Run(env, INIT, before), after);
            && HasNew(n.workerIds, |s.workerIds|, id)
            && (HasNew(n.socketIds, |s.socketIds|, id)
                || (NewIsStopped(n, |s.workerIds|, id) && ReadLoopReset(n.sends, id)))
  {
    var s := Run(env, INIT, before);
    RunKeepsStart(env, s, after, p, id, |s.workerIds|, |s.socketIds|);
  }

  // ---------------------------------------------------------------------------
  //  Accepted connections
  // ---------------------------------------------------------------------------

  ghost predicate Announced(sends: seq<Sent>, i: nat, id: int32) {
    Sent(AcceptorOf(i), STREAM_START, id, [], true) in sends
  }

  /** How far the handler of an accepted connection is, and what has come of it. */
  ghost predicate AcceptComesTo(s: State, i: nat, id: int32, workers: nat) {
    && i < |s.acceptors|
    && match s.acceptors[i]
       case AStart(x) => x == id
       case ASendWant(x) => x == id && HasNew(s.workerIds, workers, id)
       case ASendHold(x) => x == id && HasNew(s.workerIds, workers, id)
       case AStop(x) => x == id && HasNew(s.workerIds, workers, id)
       case ASockStart(x) => x == id && HasNew(s.workerIds, workers, id) && Announced(s.sends, i, id)
       case ADone =>
         && HasNew(s.workerIds, workers, id)
         && ((Announced(s.sends, i, id) && HasNew(s.socketIds, 0, id)) || NewIsStopped(s, workers, id))
  }

  /** The socket that takes an id keeps the next one out. */
  lemma TakenIdHasSocket(s: State, id: int32)
    requires Registry(s.socketIds, s.socketMap) && id in s.socketMap
    ensures HasNew(s.socketIds, 0, id)
  {
    assert s.socketIds[s.socketMap[id]] == id;
  }

  /** What the handler does at each of its positions. */
  lemma AcceptorMovesOn(env: Env, s: State, i: nat, c: Choice, id: int32)
    requires i < |s.acceptors|
    ensures var n, a := AcceptorStep(env, s, i, c), ActionOf(env, s, AcceptorOf(i), c);
            && i < |n.acceptors|
            && match s.acceptors[i]
               case AStart(x) => n == s || (n.acceptors[i] == ASendWant(x) && n.workerIds == s.workerIds + [x])
               case ASendWant(x) => n == s || n.acceptors[i] == ASendHold(x)
               case ASendHold(x) =>
                 || n.acceptors[i] == AStop(x)
                 || (n.acceptors[i] == ASockStart(x)
                     && n.sends == s.sends + [Sent(AcceptorOf(i), STREAM_START, x, [], true)])
               case AStop(x) => n.acceptors[i].ADone? && a == Spawn(x)
               case ASockStart(x) =>
                 n == s || (n.acceptors[i].ADone? && (x in s.socketMap || n.socketIds == s.socketIds + [x]))
               case ADone => n == s
  {
  }

  lemma StepLeavesOtherAcceptors(env: Env, s: State, t: Tid, c: Choice, i: nat)
    requires i < |s.acceptors| && t != AcceptorOf(i)
    ensures var n := Step(env, s, t, c); i < |n.acceptors| && n.acceptors[i] == s.acceptors[i]
  {
  }

  lemma AcceptorGivesUp(env: Env, s: State, i: nat, c: Choice, id: int32, workers: nat)
    requires workers <= |s.workerIds| && HasNew(s.workerIds, workers, id)
    requires ActionOf(env, s, AcceptorOf(i), c) == Spawn(id)
    ensures NewIsStopped(AcceptorStep(env, s, i, c), workers, id)
  {
    var w :| workers <= w < |s.workerIds| && s.workerIds[w] == id;
    SpawnAsks(env, s, AcceptorOf(i), c, w);
    StepKeepsIds(env, s, AcceptorOf(i), c);
    assert AcceptorStep(env, s, i, c).workerIds[w] == id && StopAsked(AcceptorStep(env, s, i, c), w);
  }

  lemma LastIsNew(ids: seq<int32>, n: nat, id: int32)
    requires n <= |ids|
    ensures HasNew(ids + [id], n, id)
  {
    assert (ids + [id])[|ids|] == id;
  }

  lemma AcceptorKeepsAccept(env: Env, s: State, i: nat, c: Choice, id: int32, workers: nat)
    requires Registry(s.socketIds, s.socketMap) && workers <= |s.workerIds| && AcceptComesTo(s, i, id, workers)
    ensures AcceptComesTo(AcceptorStep(env, s, i, c), i, id, workers)
  {
    AcceptorMovesOn(env, s, i, c, id);
    StepKeepsNew(env, s, AcceptorOf(i), c, workers, 0, id);
    StepSends(env, s, AcceptorOf(i), c);
    match s.acceptors[i]
    case AStart(_) => LastIsNew(s.workerIds, workers, id);
    case AStop(_) => AcceptorGivesUp(env, s, i, c, id, workers);
    case ASockStart(_) =>
      LastIsNew(s.socketIds, 0, id);
      if id in s.socketMap {
        TakenIdHasSocket(s, id);
      }
    case _ =>
  }

  lemma StepKeepsAccept(env: Env, s: State, t: Tid, c: Choice, i: nat, id: int32, workers: nat)
    requires Registry(s.socketIds, s.socketMap) && workers <= |s.workerIds| && AcceptComesTo(s, i, id, workers)
    ensures AcceptComesTo(Step(env, s, t, c), i, id, workers) && workers <= |Step(env, s, t, c).workerIds|
  {
    StepKeepsIds(env, s, t, c);
    if t == AcceptorOf(i) {
      AcceptorKeepsAccept(env, s, i, c, id, workers);
    } else {
      StepLeavesOtherAcceptors(env, s, t, c, i);
      StepKeepsNew(env, s, t, c, workers, 0, id);
      StepSends(env, s, t, c);
    }
  }

  lemma {:induction false} RunKeepsAccept(env: Env, s: State, schedule: seq<(Tid, Choice)>,
                                          i: nat, id: int32, workers: nat)
    requires Inv(s) && workers <= |s.workerIds| && AcceptComesTo(s, i, id, workers)
    ensures AcceptComesTo(Run(env, s, schedule), i, id, workers)
    decreases |schedule|
  {
    if schedule != [] {
      var t, c := schedule[0].0, schedule[0].1;
      StepKeepsInv(env, s, t, c);
      StepKeepsAccept(env, s, t, c, i, id, workers);
      RunKeepsAccept(env, Step(env, s, t, c), schedule[1..], i, id, workers);
    }
  }

  /** In source mode: the handler of an accepted connection that has returned has started a new worker for
      the id, and either has sent STREAM_START and then found or started a socket of the id, or a
      new worker is not the one of the stream any more or is being taken down. */
  lemma AcceptsComeTo(env: Env, before: seq<(Tid, Choice)>, after: seq<(Tid, Choice)>, i: nat, id: int32)
    requires var s := Run(env, INIT, before); i < |s.acceptors| && s.acceptors[i] == AStart(id)
    requires var n := Run(env, Run(env, INIT, before), after); i < |n.acceptors| && n.acceptors[i].ADone?
    ensures var s, n := Run(env, INIT, before), Run(env, Run(env, INIT, before), after);
            && HasNew(n.workerIds, |s.workerIds|, id)
            && ((Announced(n.sends, i, id) && HasNew(n.socketIds, 0, id)) || NewIsStopped(n, |s.workerIds|, id))
  {
    InvInit();
    RunKeepsInv(env, INIT, before);
    var s := Run(env, INIT, before);
    RunKeepsAccept(env, s, after, i, id, |s.workerIds|);
  }

  // ---------------------------------------------------------------------------
  //  The end of the session
  // ---------------------------------------------------------------------------

  /** Somebody has closed the worker's cancel channel, and so has cancelled it or is about to. */
  predicate IsStopped(s: State, w: nat) {
    w < |s.workers| && s.workers[w].token.Closed?
  }

  /** How far stopAll is with a worker that was there when it began. */
  ghost predicate StopAllReaches(s: State, w: nat) {
    && w < |s.workers| && w < |s.workerIds|
    && (|| !Registered(w, s.workerIds, s.workerMap) || IsStopped(s, w)
        || match s.session
           case MReading => true
           case MGetAll => true
           case MStop(rest) => w in rest
           case MRecv(v, rest) => v == w || w in rest
           case MClose(v, rest) => v == w || w in rest
           case MCancel(v, rest) => w in rest
           case MWait(v, rest) => w in rest
           case _ => false)
  }

  /** Only a full channel is drained. */
  lemma ClosedIsNotDrained(env: Env, s: State, t: Tid, c: Choice)
    ensures var a := ActionOf(env, s, t, c); a.Drain? && a.w < |s.workers| ==> s.workers[a.w].token.Full?
  {
  }

  lemma StepLeavesStopped(env: Env, s: State, t: Tid, c: Choice, w: nat)
    requires IsStopped(s, w)
    ensures IsStopped(Step(env, s, t, c), w)
  {
    StepActs(env, s, t, c);
    ClosedIsNotDrained(env, s, t, c);
  }

  lemma SessionReaches(s: State, c: Choice, w: nat)
    requires SameLengths(s) && StopAllReaches(s, w) && Registered(w, s.workerIds, s.workerMap) && !IsStopped(s, w)
    ensures StopAllReaches(SessionStep(s, c), w)
  {
  }

  lemma StepKeepsReaches(env: Env, s: State, t: Tid, c: Choice, w: nat)
    requires SameLengths(s) && StopAllReaches(s, w)
    ensures StopAllReaches(Step(env, s, t, c), w)
  {
    StepKeepsIds(env, s, t, c);
    StepActs(env, s, t, c);
    if !Registered(w, s.workerIds, s.workerMap) {
      StepUnregisters(env, s, t, c, w);
    } else if IsStopped(s, w) {
      StepLeavesStopped(env, s, t, c, w);
    } else if t.Session? {
      SessionReaches(s, c, w);
    } else {
      OthersLeaveSession(env, s, t, c);
    }
  }

  lemma {:induction false} RunKeepsReaches(env: Env, s: State, schedule: seq<(Tid, Choice)>, w: nat)
    requires Inv(s) && StopAllReaches(s, w)
    ensures StopAllReaches(Run(env, s, schedule), w)
    decreases |schedule|
  {
    if schedule != [] {
      StepKeepsInv(env, s, schedule[0].0, schedule[0].1);
      StepKeepsReaches(env, s, schedule[0].0, schedule[0].1, w);
      RunKeepsReaches(env, Step(env, s, schedule[0].0, schedule[0].1), schedule[1..], w);
    }
  }

  predicate PastStopAll(session: SessionPc) {
    session.MSockLock? || session.MSockPick? || session.MSockWait? || session.MDone?
  }

  /** In either mode: when stopAll has returned, each worker that was there before it began and is still the
      one of its stream has had its cancel channel closed, by stopAll or by another stop. */
  lemma StopAllReachesWorkers(env: Env, before: seq<(Tid, Choice)>, after: seq<(Tid, Choice)>, w: nat)
    requires var s := Run(env, INIT, before); w < |s.workers| && (s.session.MReading? || s.session.MGetAll?)
    requires PastStopAll(Run(env, Run(env, INIT, before), after).session)
    ensures var n := Run(env, Run(env, INIT, before), after);
            !Registered(w, n.workerIds, n.workerMap) || IsStopped(n, w)
  {
    InvInit();
    RunKeepsInv(env, INIT, before);
    RunKeepsReaches(env, Run(env, INIT, before), after, w);
  }
}
