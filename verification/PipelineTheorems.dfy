/** What holds over whole runs of a session, for every input and every schedule. */
module PipelineTheorems {
  import opened Basics
  import opened Protobuf
  import opened Pipeline
  import opened PipelineInvariants
  import opened PipelineProofs
  import PipelineDelivery
  import Framing
  import Workers

  // ---------------------------------------------------------------------------
  //  Worker manager
  // ---------------------------------------------------------------------------

  /** exec returns true only for a job that has joined the queue of the worker started last for the
      stream, and that worker is running: nobody has begun to stop it. */
  lemma ExecJoinsLatestLiveWorker(env: Env, schedule: seq<(Tid, Choice)>, c: Choice)
    requires ReadMove(env, Run(env, INIT, schedule), c).Go? && ReadMove(env, Run(env, INIT, schedule), c).act.Enqueue?
    ensures var s := Run(env, INIT, schedule);
            var Go(_, Enqueue(w, job)) := ReadMove(env, s, c);
            && w < |s.workers| && w < |s.workerIds| && w < |s.workerPc|
            && Names(s.workerMap, s.workerIds, s.workerIds[w], w)
            && (forall v :: 0 <= v < |s.workerIds| && s.workerIds[v] == s.workerIds[w] ==> v <= w)
            && s.workers[w].token.Full? && !s.workers[w].cancelled && !s.workerPc[w].WDone?
            && ReadStep(env, s, c).workers[w].chExec == s.workers[w].chExec + [job]
  {
    InvInit();
    RunKeepsInv(env, INIT, schedule);
    ExecJoinsLiveWorker(env, Run(env, INIT, schedule), c);
  }

  lemma ExecJoinsLiveWorker(env: Env, s: State, c: Choice)
    requires WmOk(s) && MapsOk(s) && RefsOk(s) && TokensOk(s)
    requires ReadMove(env, s, c).Go? && ReadMove(env, s, c).act.Enqueue?
    ensures var Go(_, Enqueue(w, job)) := ReadMove(env, s, c);
            && w < |s.workers| && w < |s.workerIds| && w < |s.workerPc|
            && Names(s.workerMap, s.workerIds, s.workerIds[w], w)
            && (forall v :: 0 <= v < |s.workerIds| && s.workerIds[v] == s.workerIds[w] ==> v <= w)
            && s.workers[w].token.Full? && !s.workers[w].cancelled && !s.workerPc[w].WDone?
            && ReadStep(env, s, c).workers[w].chExec == s.workers[w].chExec + [job]
  {
    assert TokenAt(s, s.read.w);
  }

  /** Somebody has closed the cancel channel of worker w and is about to call what it took out of it. */
  predicate AboutToCancel(s: State, w: nat) {
    || (s.session.MCancel? && s.session.w == w)
    || exists i :: 0 <= i < |s.stoppers| && s.stoppers[i].PCancel? && s.stoppers[i].w == w
  }

  /** However many goroutines stop a worker, stopAll among them: the cancel channel is never closed
      twice, and exactly one of them cancels the context, once. It is the one that has closed the channel:
      while nobody is between closing and cancelling, the context is cancelled exactly if the channel is
      closed. A worker that has ended was cancelled. */
  lemma StoppedOnce(env: Env, schedule: seq<(Tid, Choice)>, w: nat)
    requires w < |Run(env, INIT, schedule).workers|
    ensures var s := Run(env, INIT, schedule);
            && !s.panicked
            && w < |s.workerPc|
            && s.workers[w].cancels <= 1
            && (s.workers[w].cancels == 1 <==> s.workers[w].cancelled)
            && (s.workers[w].cancels == 1 ==> s.workers[w].token.Closed?)
            && (s.workers[w].token.Closed? && !AboutToCancel(s, w) ==> s.workers[w].cancels == 1)
            && (s.workerPc[w].WDone? ==> s.workers[w].cancels == 1)
  {
    InvInit();
    RunKeepsInv(env, INIT, schedule);
    assert TokenAt(Run(env, INIT, schedule), w);
  }

  /** Under every schedule, a stopper that is about to delete its worker finds it registered under its
      stream, with its cancel channel closed, and until stopAll begins it finds that it has ended, having
      been cancelled once; the step takes just this worker out of the manager, as the method Stop does,
      and gives the lock back. */
  lemma StopRemovesAStoppedWorker(env: Env, schedule: seq<(Tid, Choice)>, i: nat, c: Choice)
    requires var s := Run(env, INIT, schedule); i < |s.stoppers| && s.stoppers[i].PDelete?
    ensures var s := Run(env, INIT, schedule);
            var n, id, w := Step(env, s, StopperOf(i), c), s.stoppers[i].id, s.stoppers[i].w;
            && Names(s.workerMap, s.workerIds, id, w) && w < |s.workers| && s.workers[w].token.Closed?
            && (s.session.MReading? || s.session.MGetAll? ==> Ended(s, w) && s.workers[w].cancels == 1)
            && s.wmHolder == Some(i) && n.wmHolder == None
            && Workers.ViewOf(n) == Workers.ViewOf(s) - {id} && n.workers == s.workers
  {
    InvInit();
    RunKeepsInv(env, INIT, schedule);
    var s := Run(env, INIT, schedule);
    StopperAtDelete(s, i);
    Workers.StopMatches(s, StopperOf(i), s.stoppers[i].id);
    DeleteIsUnlock(env, s, i, c);
  }

  lemma StopperAtDelete(s: State, i: nat)
    requires WmOk(s) && MapsOk(s) && RefsOk(s) && TokensOk(s) && i < |s.stoppers| && s.stoppers[i].PDelete?
    ensures var id, w := s.stoppers[i].id, s.stoppers[i].w;
            && s.wmHolder == Some(i) && Names(s.workerMap, s.workerIds, id, w)
            && w < |s.workers| && s.workers[w].token.Closed?
            && (s.session.MReading? || s.session.MGetAll? ==> Ended(s, w) && s.workers[w].cancels == 1)
  {
    assert TokenAt(s, s.stoppers[i].w);
  }

  lemma DeleteIsUnlock(env: Env, s: State, i: nat, c: Choice)
    requires i < |s.stoppers| && s.stoppers[i].PDelete?
    ensures var n, applied := Step(env, s, StopperOf(i), c), Apply(s, StopperOf(i), UnlockWm(s.stoppers[i].id));
            n.workers == applied.workers == s.workers && n.workerMap == applied.workerMap && n.wmHolder == None
  {
  }

  // ---------------------------------------------------------------------------
  //  Workers
  // ---------------------------------------------------------------------------

  /** A worker runs its jobs in the order in which it was given them, one at a time, and never has
      more than the channel holds waiting. */
  lemma WorkerLedger(env: Env, schedule: seq<(Tid, Choice)>, w: nat)
    requires w < |Run(env, INIT, schedule).workers| && w < |Run(env, INIT, schedule).workerPc|
    ensures var s := Run(env, INIT, schedule);
            var worker := s.workers[w];
            && worker.enqueued == worker.done + Running(s.workerPc[w]) + worker.chExec
            && |Running(s.workerPc[w])| <= 1
            && |worker.chExec| <= BUF_SIZE
            && worker.done <= worker.enqueued
  {
    InvInit();
    RunKeepsInv(env, INIT, schedule);
    var s := Run(env, INIT, schedule);
    assert LedgerOf(s.workers[w], s.workerPc[w]);
    DoneIsPrefix(s.workers[w].done, Running(s.workerPc[w]), s.workers[w].chExec);
  }

  /** Jobs run in the order in which they were given to the worker: once the j-th has begun, every
      earlier one is over. */
  lemma JobsRunInOrder(env: Env, schedule: seq<(Tid, Choice)>, w: nat, i: nat, j: nat)
    requires w < |Run(env, INIT, schedule).workers| && w < |Run(env, INIT, schedule).workerPc|
    requires var s := Run(env, INIT, schedule);
             i < j < |s.workers[w].done| + |Running(s.workerPc[w])|
    ensures var s := Run(env, INIT, schedule);
            var worker := s.workers[w];
            && i < |worker.done| && j < |worker.enqueued|
            && worker.done[i] == worker.enqueued[i]
            && (Running(s.workerPc[w]) != [] ==>
                  |worker.done| < |worker.enqueued| && Running(s.workerPc[w]) == [worker.enqueued[|worker.done|]])
  {
    WorkerLedger(env, schedule, w);
  }

  lemma DoneIsPrefix<T>(a: seq<T>, b: seq<T>, c: seq<T>)
    ensures a <= a + b + c
  {
  }

  /** The queue of a worker only grows, and so does the list of what it has run; once the worker
      has ended that list is final. */
  ghost predicate Grows(s: State, n: State, w: nat) {
    && w < |s.workers| <= |n.workers| && w < |s.workerPc| <= |n.workerPc|
    && s.workers[w].enqueued <= n.workers[w].enqueued
    && s.workers[w].done <= n.workers[w].done
    && (s.workerPc[w].WDone? ==> n.workerPc[w].WDone? && n.workers[w].done == s.workers[w].done)
  }

  lemma ApplyGrows(s: State, t: Tid, a: Act, w: nat)
    requires MapsOk(s) && w < |s.workers|
    requires a.Complete? && a.w == w ==> !s.workerPc[w].WDone?
    ensures Grows(s, Apply(s, t, a), w)
  {
  }

  /** Grows speaks of workers and their positions only. */
  lemma GrowsOfSame(s: State, a: State, n: State, w: nat)
    requires Grows(s, a, w) && n.workers == a.workers && n.workerPc == a.workerPc
    ensures Grows(s, n, w)
  {
  }

  lemma ReadGrows(env: Env, s: State, c: Choice, w: nat)
    requires MapsOk(s) && w < |s.workers|
    ensures Grows(s, ReadStep(env, s, c), w)
  {
    if ReadMove(env, s, c).Go? {
      var a := ReadMove(env, s, c).act;
      ApplyGrows(s, ReadLoop, a, w);
      GrowsOfSame(s, Apply(s, ReadLoop, a), ReadStep(env, s, c), w);
    }
  }

  lemma SessionGrows(s: State, c: Choice, w: nat)
    requires MapsOk(s) && w < |s.workers|
    ensures Grows(s, SessionStep(s, c), w)
  {
    if SessionMove(s, c).Go? {
      var a := SessionMove(s, c).act;
      ApplyGrows(s, Session, a, w);
      GrowsOfSame(s, Apply(s, Session, a), SessionStep(s, c), w);
    }
  }

  lemma WorkerGrows(s: State, v: nat, c: Choice, w: nat)
    requires MapsOk(s) && w < |s.workers|
    ensures Grows(s, WorkerStep(s, v, c), w)
  {
    if v < |s.workers| && WorkerMove(s, v, c).Go? {
      ApplyGrows(s, WorkerOf(v), WorkerMove(s, v, c).act, w);
    }
  }

  lemma SocketGrows(s: State, k: nat, c: Choice, w: nat)
    requires MapsOk(s) && w < |s.workers|
    ensures Grows(s, SocketStep(s, k, c), w)
  {
    if k < |s.sockets| && SocketMove(s, k, c).Go? {
      var a := SocketMove(s, k, c).act;
      ApplyGrows(s, SocketOf(k), a, w);
      GrowsOfSame(s, Apply(s, SocketOf(k), a), SocketStep(s, k, c), w);
    }
  }

  lemma StopperGrows(s: State, i: nat, w: nat)
    requires MapsOk(s) && w < |s.workers|
    ensures Grows(s, StopperStep(s, i), w)
  {
    if i < |s.stoppers| && StopperMove(s, i).Go? {
      var a := StopperMove(s, i).act;
      ApplyGrows(s, StopperOf(i), a, w);
      GrowsOfSame(s, Apply(s, StopperOf(i), a), StopperStep(s, i), w);
    }
  }

  lemma AcceptorGrows(env: Env, s: State, i: nat, c: Choice, w: nat)
    requires MapsOk(s) && w < |s.workers|
    ensures Grows(s, AcceptorStep(env, s, i, c), w)
  {
    if i < |s.acceptors| && AcceptorMove(s, i, c).Go? {
      var a := AcceptorMove(s, i, c).act;
      ApplyGrows(s, AcceptorOf(i), a, w);
      GrowsOfSame(s, Apply(s, AcceptorOf(i), a), AcceptorStep(env, s, i, c), w);
    }
  }

  lemma StepGrows(env: Env, s: State, t: Tid, c: Choice, w: nat)
    requires MapsOk(s) && w < |s.workers|
    ensures Grows(s, Step(env, s, t, c), w)
  {
    match t
    case ReadLoop => ReadGrows(env, s, c, w);
    case Session => SessionGrows(s, c, w);
    case WorkerOf(v) => WorkerGrows(s, v, c, w);
    case SocketOf(k) => SocketGrows(s, k, c, w);
    case StopperOf(i) => StopperGrows(s, i, w);
    case AcceptorOf(i) => AcceptorGrows(env, s, i, c, w);
  }

  lemma {:induction false} LedgerGrows(env: Env, s: State, schedule: seq<(Tid, Choice)>, w: nat)
    requires Inv(s) && w < |s.workers|
    ensures Grows(s, Run(env, s, schedule), w)
    decreases |schedule|
  {
    if schedule != [] {
      var n := Step(env, s, schedule[0].0, schedule[0].1);
      StepGrows(env, s, schedule[0].0, schedule[0].1, w);
      StepKeepsInv(env, s, schedule[0].0, schedule[0].1);
      LedgerGrows(env, n, schedule[1..], w);
    }
  }

  // ---------------------------------------------------------------------------
  //  Sockets
  // ---------------------------------------------------------------------------

  /** A socket whose reader is still there is in the map under its own id. */
  lemma LiveSocketsAreRegistered(env: Env, schedule: seq<(Tid, Choice)>, k: nat)
    requires k < |Run(env, INIT, schedule).sockets|
    ensures var s := Run(env, INIT, schedule);
            && k < |s.socketPc| && k < |s.socketIds|
            && (!s.socketPc[k].SDone? ==> Names(s.socketMap, s.socketIds, s.socketIds[k], k))
            && (s.socketPc[k].SDone? ==> s.sockets[k].closed)
  {
    InvInit();
    RunKeepsInv(env, INIT, schedule);
  }

  /** When StopAll gives its lock back, every reader ever started has ended and every connection
      is closed. */
  lemma StopAllStopsEverything(env: Env, schedule: seq<(Tid, Choice)>, k: nat)
    requires var s := Run(env, INIT, schedule);
             && (s.read.RAllPick? || s.session.MSockPick?)
             && s.socketMap == map[]
             && k < |s.sockets|
    ensures var s := Run(env, INIT, schedule);
            k < |s.socketPc| && s.socketPc[k].SDone? && s.sockets[k].closed
  {
    LiveSocketsAreRegistered(env, schedule, k);
  }

  /** At any time a stream has at most one socket whose reader is still there: a start for an id that is
      taken starts nothing. */
  lemma OneLiveSocketPerStream(env: Env, schedule: seq<(Tid, Choice)>, j: nat, k: nat)
    requires var s := Run(env, INIT, schedule);
             && j < |s.sockets| && k < |s.sockets|
             && j < |s.socketIds| && k < |s.socketIds| && s.socketIds[j] == s.socketIds[k]
             && j < |s.socketPc| && k < |s.socketPc| && !s.socketPc[j].SDone? && !s.socketPc[k].SDone?
    ensures j == k
  {
    LiveSocketsAreRegistered(env, schedule, j);
    LiveSocketsAreRegistered(env, schedule, k);
  }

  // ---------------------------------------------------------------------------
  //  From the websocket to the local socket
  // ---------------------------------------------------------------------------

  /** What keepReadingMessages gets to see: messages, up to the first error. */
  function Heard(outs: seq<Framing.Outcome<TunnelMessage>>): seq<TunnelMessage> {
    if outs == [] || !outs[0].Message? then [] else [outs[0].message] + Heard(outs[1..])
  }

  lemma {:induction false} HeardOfPrefix(a: seq<Framing.Outcome<TunnelMessage>>, b: seq<Framing.Outcome<TunnelMessage>>)
    ensures Heard(a) <= Heard(a + b)
  {
    if a != [] && a[0].Message? {
      assert (a + b)[1..] == a[1..] + b;
      HeardOfPrefix(a[1..], b);
    }
  }

  lemma {:induction false} HeardOfDelivered(outs: seq<Framing.Outcome<TunnelMessage>>)
    ensures Heard(outs) <= Heard(Framing.Delivered(outs))
  {
    if outs != [] && outs[0].Message? {
      HeardOfDelivered(outs[1..]);
    }
  }

  lemma {:induction false} ParseOfPrefix(c: Framing.Codec<TunnelMessage>, a: seq<byte>, b: seq<byte>)
    ensures Framing.Parse(c, a) <= Framing.Parse(c, a + b)
    decreases |a|
  {
    if Framing.HasFrame(a) {
      Framing.HeadOfTotal(a, b);
      var end := Framing.EndPosition(a);
      if end >= Framing.SIZE_OF_MESSAGE_SIZE {
        ParseOfPrefix(c, a[end..], b);
      }
    }
  }

  /** However the bytes are cut into websocket frames and whenever the connection fails, the read
      loop hears the messages the bytes spell, in order, up to some point. */
  lemma HeardFromBytes(c: Framing.Codec<TunnelMessage>, script: seq<Framing.WsRead>, calls: nat)
    ensures Heard(Framing.Calls(c, [], script, 0, calls).outcomes)
         <= Heard(Framing.Parse(c, Framing.Bytes(script, 0, |script|)))
  {
    var h := Framing.Calls(c, [], script, 0, calls);
    Framing.CallsFollowParse(c, [], script, 0, calls);
    var received := Framing.Bytes(script, 0, h.pos);
    assert [] + received == received;
    HeardOfDelivered(h.outcomes);
    HeardOfPrefix(Framing.Delivered(h.outcomes), if h.panicked then [] else Framing.Parse(c, h.buf));
    Framing.BytesSplit(script, 0, h.pos, |script|);
    var rest := Framing.Bytes(script, h.pos, |script|);
    ParseOfPrefix(c, received, rest);
    var some, all := Framing.Parse(c, received), Framing.Parse(c, received + rest);
    assert all == some + all[|some|..];
    HeardOfPrefix(some, all[|some|..]);
  }

  /** End to end, in destination mode: for every way of cutting the byte stream into frames, every
      failure of the connection, every interleaving of streams, resets and stops, and every answer
      of the local services, a local socket is handed a prefix of what the byte stream carries for
      its stream. */
  lemma EndToEndDelivery(c: Framing.Codec<TunnelMessage>, script: seq<Framing.WsRead>, calls: nat,
                         schedule: seq<(Tid, Choice)>, k: nat)
    requires var env := Env(Heard(Framing.Calls(c, [], script, 0, calls).outcomes), false);
             var s := Run(env, INIT, schedule);
             && k < |s.sockets| && k < |s.socketIds|
             && var spelt := Heard(Framing.Parse(c, Framing.Bytes(script, 0, |script|)));
                PipelineDelivery.StartedOnce(spelt, s.socketIds[k])
    ensures var env := Env(Heard(Framing.Calls(c, [], script, 0, calls).outcomes), false);
            var s := Run(env, INIT, schedule);
            s.sockets[k].handed
            <= PipelineDelivery.Sent(Heard(Framing.Parse(c, Framing.Bytes(script, 0, |script|))), s.socketIds[k])
  {
    var heard := Heard(Framing.Calls(c, [], script, 0, calls).outcomes);
    var all := Heard(Framing.Parse(c, Framing.Bytes(script, 0, |script|)));
    HeardFromBytes(c, script, calls);
    var id := Run(Env(heard, false), INIT, schedule).socketIds[k];
    assert all == heard + all[|heard|..];
    PipelineDelivery.PrefixDelivery(Env(heard, false), schedule, k);
    PipelineDelivery.SentGrows(heard, all[|heard|..], id);
  }
}
