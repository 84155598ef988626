/** No deadlock: whoever waits, waits in the end for somebody who can move. */
module PipelineProgress {
  import opened Basics
  import opened Protobuf
  import opened Pipeline
  import opened PipelineInvariants
  import opened PipelineProofs

  /** A thread that has nothing to do: it does not exist, it has returned, or it is a worker at its
      select with neither a job nor a cancelled context. */
  predicate Idle(s: State, t: Tid) {
    match t
    case ReadLoop => s.read.RDone?
    case Session => s.session.MDone?
    case WorkerOf(w) =>
      || w >= |s.workers| || w >= |s.workerPc| || w >= |s.workerIds|
      || s.workerPc[w].WDone?
      || (s.workerPc[w].WSelect? && !s.workers[w].cancelled && s.workers[w].chExec == [])
    case SocketOf(k) => k >= |s.sockets| || k >= |s.socketPc| || k >= |s.socketIds| || s.socketPc[k].SDone?
    case StopperOf(i) => i >= |s.stoppers| || s.stoppers[i].PDone?
    case AcceptorOf(i) => i >= |s.acceptors| || s.acceptors[i].ADone?
  }

  predicate Moves(env: Env, s: State, t: Tid, c: Choice) {
    match t
    case ReadLoop => ReadMove(env, s, c).Go?
    case Session => SessionMove(s, c).Go?
    case WorkerOf(w) => w < |s.workers| && w < |s.workerPc| && w < |s.workerIds| && WorkerMove(s, w, c).Go?
    case SocketOf(k) => k < |s.sockets| && k < |s.socketPc| && k < |s.socketIds| && SocketMove(s, k, c).Go?
    case StopperOf(i) => i < |s.stoppers| && StopperMove(s, i).Go?
    case AcceptorOf(i) => i < |s.acceptors| && AcceptorMove(s, i, c).Go?
  }

  /** Threads that want a write lock. */
  predicate WantsWm(s: State, t: Tid) {
    match t
    case ReadLoop => s.read.RStart?
    case StopperOf(i) => i < |s.stoppers| && s.stoppers[i].PWant?
    case AcceptorOf(i) => i < |s.acceptors| && s.acceptors[i].AStart?
    case _ => false
  }

  predicate WantsSm(s: State, t: Tid) {
    match t
    case ReadLoop => s.read.RSockStart? || s.read.RAllLock?
    case Session => s.session.MSockLock?
    case WorkerOf(w) => w < |s.workerPc| && s.workerPc[w].WResetLock?
    case AcceptorOf(i) => i < |s.acceptors| && s.acceptors[i].ASockStart?
    case _ => false
  }

  /** A sync.RWMutex lets nobody in to read while somebody waits to write. */
  ghost predicate HeldBack(s: State, t: Tid) {
    match t
    case ReadLoop => s.read.RExecLock? && exists u :: WantsWm(s, u)
    case Session => s.session.MGetAll? && exists u :: WantsWm(s, u)
    case WorkerOf(w) => w < |s.workerPc| && s.workerPc[w].WLookup? && exists u :: WantsSm(s, u)
    case _ => false
  }

  /** Thread t can move: the outside has an answer that lets it, and no waiting writer is in its way.
      Calls that leave the process return, with success or with an error. */
  ghost predicate Free(env: Env, s: State, t: Tid) {
    (exists c :: Moves(env, s, t, c)) && !HeldBack(s, t)
  }

  // ---------------------------------------------------------------------------
  //  Who waits for whom
  // ---------------------------------------------------------------------------

  predicate HoldsWmLock(s: State, u: Tid) {
    (s.wmHolder.Some? && u == StopperOf(s.wmHolder.value)) || (s.read.RExec? && u == ReadLoop)
  }

  /** u is in the middle of Worker.Stop for worker w: it has drained chCancel, not closed it. */
  predicate Drained(s: State, w: nat, u: Tid) {
    || (u == Session && s.session.MClose? && s.session.w == w)
    || (s.wmHolder.Some? && u == StopperOf(s.wmHolder.value) && s.wmHolder.value < |s.stoppers|
        && s.stoppers[s.wmHolder.value].PClose? && s.stoppers[s.wmHolder.value].w == w)
  }

  predicate ReadWaits(s: State, u: Tid) {
    match s.read
    case RStart(_) => HoldsWmLock(s, u)
    case RExecLock(_, _) => (s.wmHolder.Some? && u == StopperOf(s.wmHolder.value)) || WantsWm(s, u)
    case RExec(w, _) => w < |s.workers| && |s.workers[w].chExec| >= BUF_SIZE && u == WorkerOf(w)
    case RSockStart(_) => s.smHolder == Some(u)
    case RAllLock => s.smHolder == Some(u)
    case RAllWait(_, k) => !Terminated(s, k) && u == SocketOf(k)
    case RSendWant(_) => s.mutex == Some(u)
    case _ => false
  }

  predicate SessionWaits(s: State, u: Tid) {
    match s.session
    case MReading => !s.read.RDone? && u == ReadLoop
    case MGetAll => (s.wmHolder.Some? && u == StopperOf(s.wmHolder.value)) || WantsWm(s, u)
    case MRecv(w, _) => w < |s.workers| && s.workers[w].token.Taken? && Drained(s, w, u)
    case MWait(w, _) => !Ended(s, w) && u == WorkerOf(w)
    case MSockLock => s.smHolder == Some(u)
    case MSockWait(_, k) => !Terminated(s, k) && u == SocketOf(k)
    case _ => false
  }

  predicate WorkerWaits(s: State, w: nat, u: Tid)
    requires w < |s.workerPc|
  {
    match s.workerPc[w]
    case WLookup(_) => s.smHolder == Some(u) || WantsSm(s, u)
    case WResetLock => s.smHolder == Some(u)
    case WResetWait(k) => !Terminated(s, k) && u == SocketOf(k)
    case WSendWant(_) => s.mutex == Some(u)
    case _ => false
  }

  predicate StopperWaits(s: State, i: nat, u: Tid)
    requires i < |s.stoppers|
  {
    match s.stoppers[i]
    case PWant(_) => HoldsWmLock(s, u)
    case PRecv(_, w) => w < |s.workers| && s.workers[w].token.Taken? && Drained(s, w, u)
    case PWait(_, w) => !Ended(s, w) && u == WorkerOf(w)
    case _ => false
  }

  predicate AcceptorWaits(s: State, i: nat, u: Tid)
    requires i < |s.acceptors|
  {
    match s.acceptors[i]
    case AStart(_) => HoldsWmLock(s, u)
    case ASendWant(_) => s.mutex == Some(u)
    case ASockStart(_) => s.smHolder == Some(u)
    case _ => false
  }

  predicate WaitsFor(s: State, t: Tid, u: Tid) {
    match t
    case ReadLoop => ReadWaits(s, u)
    case Session => SessionWaits(s, u)
    case WorkerOf(w) => w < |s.workerPc| && WorkerWaits(s, w, u)
    case SocketOf(k) =>
      k < |s.socketPc| && (s.socketPc[k].SSendWant? || s.socketPc[k].SErrWant?) && s.mutex == Some(u)
    case StopperOf(i) => i < |s.stoppers| && StopperWaits(s, i, u)
    case AcceptorOf(i) => i < |s.acceptors| && AcceptorWaits(s, i, u)
  }

  /** end of session < worker manager read lock < its write lock < worker < socket manager read
      lock < its write lock < socket < write mutex; 8 is a position where nothing is waited for. */
  function Rank(s: State, t: Tid): nat {
    match t
    case ReadLoop =>
      (match s.read
       case RExecLock(_, _) => 1
       case RStart(_) => 2
       case RExec(_, _) => 3
       case RSockStart(_) => 5
       case RAllLock => 5
       case RAllWait(_, _) => 6
       case RSendWant(_) => 7
       case _ => 8)
    case Session =>
      (match s.session
       case MReading => 0
       case MGetAll => 1
       case MRecv(_, _) => 3
       case MWait(_, _) => 3
       case MSockLock => 5
       case MSockWait(_, _) => 6
       case _ => 8)
    case WorkerOf(w) =>
      if w >= |s.workerPc| then 8
      else (match s.workerPc[w]
            case WLookup(_) => 4
            case WResetLock => 5
            case WResetWait(_) => 6
            case WSendWant(_) => 7
            case _ => 8)
    case SocketOf(k) =>
      if k < |s.socketPc| && (s.socketPc[k].SSendWant? || s.socketPc[k].SErrWant?) then 7 else 8
    case StopperOf(i) =>
      if i >= |s.stoppers| then 8
      else (match s.stoppers[i]
            case PWant(_) => 2
            case PRecv(_, _) => 3
            case PWait(_, _) => 3
            case _ => 8)
    case AcceptorOf(i) =>
      if i >= |s.acceptors| then 8
      else (match s.acceptors[i]
            case AStart(_) => 2
            case ASendWant(_) => 7
            case ASockStart(_) => 5
            case _ => 8)
  }

  // ---------------------------------------------------------------------------
  //  A thread is blocked exactly when it waits for somebody
  // ---------------------------------------------------------------------------

  /** An answer of the outside that lets a thread move if any does. */
  ghost function Answer(s: State, t: Tid): Choice {
    var id: int32 :=
      if s.socketMap == map[] then 0 else var id :| id in s.socketMap; id;
    var index: nat :=
      if s.session.MStop? && s.session.rest != {} then var w :| w in s.session.rest; w else 0;
    var ok := match t case WorkerOf(w) => w < |s.workers| && s.workers[w].cancelled case _ => true;
    Choice(ok, [], id, index)
  }

  ghost predicate Waits(s: State, t: Tid) {
    exists u :: WaitsFor(s, t, u)
  }

  /** Two ways to see that a thread is free or waits. */
  lemma FreeNow(env: Env, s: State, t: Tid)
    requires Moves(env, s, t, Answer(s, t)) && !HeldBack(s, t)
    ensures Free(env, s, t)
  {
  }

  lemma WaitsNow(s: State, t: Tid, u: Tid)
    requires WaitsFor(s, t, u)
    ensures Waits(s, t)
  {
  }

  lemma ReadFreeOrWaits(env: Env, s: State)
    requires Inv(s) && !Idle(s, ReadLoop)
    ensures Free(env, s, ReadLoop) || Waits(s, ReadLoop)
  {
    match s.read
    case RStart(_) =>
      if s.wmHolder.Some? { WaitsNow(s, ReadLoop, StopperOf(s.wmHolder.value)); } else { FreeNow(env, s, ReadLoop); }
    case RExecLock(_, _) =>
      if s.wmHolder.Some? { WaitsNow(s, ReadLoop, StopperOf(s.wmHolder.value)); }
      else if u :| WantsWm(s, u) { WaitsNow(s, ReadLoop, u); }
      else { FreeNow(env, s, ReadLoop); }
    case RExec(w, _) =>
      if |s.workers[w].chExec| >= BUF_SIZE { WaitsNow(s, ReadLoop, WorkerOf(w)); } else { FreeNow(env, s, ReadLoop); }
    case RSockStart(_) =>
      if s.smHolder.Some? { WaitsNow(s, ReadLoop, s.smHolder.value); } else { FreeNow(env, s, ReadLoop); }
    case RAllLock =>
      if s.smHolder.Some? { WaitsNow(s, ReadLoop, s.smHolder.value); } else { FreeNow(env, s, ReadLoop); }
    case RAllWait(_, k) =>
      if !Terminated(s, k) { WaitsNow(s, ReadLoop, SocketOf(k)); } else { FreeNow(env, s, ReadLoop); }
    case RSendWant(_) =>
      if s.mutex.Some? { WaitsNow(s, ReadLoop, s.mutex.value); } else { FreeNow(env, s, ReadLoop); }
    case _ => FreeNow(env, s, ReadLoop);
  }

  /** Worker w has been drained and not closed: somebody is about to close it. */
  lemma SomebodyCloses(s: State, w: nat)
    requires Inv(s) && w < |s.workers| && s.workers[w].token.Taken?
    ensures exists u :: Drained(s, w, u)
  {
    assert TokenAt(s, w);
    if s.session.MClose? && s.session.w == w {
      assert Drained(s, w, Session);
    } else {
      assert Drained(s, w, StopperOf(s.wmHolder.value));
    }
  }

  lemma SessionFreeOrWaits(env: Env, s: State)
    requires Inv(s) && !Idle(s, Session)
    ensures Free(env, s, Session) || Waits(s, Session)
  {
    match s.session
    case MReading =>
      if !s.read.RDone? { WaitsNow(s, Session, ReadLoop); } else { FreeNow(env, s, Session); }
    case MGetAll =>
      if s.wmHolder.Some? { WaitsNow(s, Session, StopperOf(s.wmHolder.value)); }
      else if u :| WantsWm(s, u) { WaitsNow(s, Session, u); }
      else { FreeNow(env, s, Session); }
    case MRecv(w, _) =>
      if s.workers[w].token.Taken? {
        SomebodyCloses(s, w);
        var u :| Drained(s, w, u);
        WaitsNow(s, Session, u);
      } else { FreeNow(env, s, Session); }
    case MWait(w, _) =>
      if !Ended(s, w) { WaitsNow(s, Session, WorkerOf(w)); } else { FreeNow(env, s, Session); }
    case MSockLock =>
      if s.smHolder.Some? { WaitsNow(s, Session, s.smHolder.value); } else { FreeNow(env, s, Session); }
    case MSockWait(_, k) =>
      if !Terminated(s, k) { WaitsNow(s, Session, SocketOf(k)); } else { FreeNow(env, s, Session); }
    case _ => FreeNow(env, s, Session);
  }

  lemma WorkerFreeOrWaits(env: Env, s: State, w: nat)
    requires Inv(s) && !Idle(s, WorkerOf(w))
    ensures Free(env, s, WorkerOf(w)) || Waits(s, WorkerOf(w))
  {
    var t := WorkerOf(w);
    match s.workerPc[w]
    case WLookup(_) =>
      if s.smHolder.Some? { WaitsNow(s, t, s.smHolder.value); }
      else if u :| WantsSm(s, u) { WaitsNow(s, t, u); }
      else { FreeNow(env, s, t); }
    case WResetLock =>
      if s.smHolder.Some? { WaitsNow(s, t, s.smHolder.value); } else { FreeNow(env, s, t); }
    case WResetWait(k) =>
      if !Terminated(s, k) { WaitsNow(s, t, SocketOf(k)); } else { FreeNow(env, s, t); }
    case WSendWant(_) =>
      if s.mutex.Some? { WaitsNow(s, t, s.mutex.value); } else { FreeNow(env, s, t); }
    case _ => FreeNow(env, s, t);
  }

  lemma SocketFreeOrWaits(env: Env, s: State, k: nat)
    requires Inv(s) && !Idle(s, SocketOf(k))
    ensures Free(env, s, SocketOf(k)) || Waits(s, SocketOf(k))
  {
    var t := SocketOf(k);
    if (s.socketPc[k].SSendWant? || s.socketPc[k].SErrWant?) && s.mutex.Some? {
      WaitsNow(s, t, s.mutex.value);
    } else {
      FreeNow(env, s, t);
    }
  }

  lemma StopperFreeOrWaits(env: Env, s: State, i: nat)
    requires Inv(s) && !Idle(s, StopperOf(i))
    ensures Free(env, s, StopperOf(i)) || Waits(s, StopperOf(i))
  {
    var t := StopperOf(i);
    match s.stoppers[i]
    case PWant(_) =>
      if s.wmHolder.Some? { WaitsNow(s, t, StopperOf(s.wmHolder.value)); }
      else if s.read.RExec? { WaitsNow(s, t, ReadLoop); }
      else { FreeNow(env, s, t); }
    case PRecv(_, w) =>
      if s.workers[w].token.Taken? {
        SomebodyCloses(s, w);
        var u :| Drained(s, w, u);
        WaitsNow(s, t, u);
      } else { FreeNow(env, s, t); }
    case PWait(_, w) =>
      if !Ended(s, w) { WaitsNow(s, t, WorkerOf(w)); } else { FreeNow(env, s, t); }
    case _ => FreeNow(env, s, t);
  }

  lemma AcceptorFreeOrWaits(env: Env, s: State, i: nat)
    requires Inv(s) && !Idle(s, AcceptorOf(i))
    ensures Free(env, s, AcceptorOf(i)) || Waits(s, AcceptorOf(i))
  {
    var t := AcceptorOf(i);
    match s.acceptors[i]
    case AStart(_) =>
      if s.wmHolder.Some? { WaitsNow(s, t, StopperOf(s.wmHolder.value)); }
      else if s.read.RExec? { WaitsNow(s, t, ReadLoop); }
      else { FreeNow(env, s, t); }
    case ASendWant(_) =>
      if s.mutex.Some? { WaitsNow(s, t, s.mutex.value); } else { FreeNow(env, s, t); }
    case ASockStart(_) =>
      if s.smHolder.Some? { WaitsNow(s, t, s.smHolder.value); } else { FreeNow(env, s, t); }
    case _ => FreeNow(env, s, t);
  }

  /** Waiting for somebody is all that ever stops a thread that has something to do. */
  lemma BlockedIffWaits(env: Env, s: State, t: Tid)
    requires Inv(s) && !Idle(s, t)
    ensures Free(env, s, t) <==> !Waits(s, t)
  {
    match t
    case ReadLoop => ReadFreeOrWaits(env, s);
    case Session => SessionFreeOrWaits(env, s);
    case WorkerOf(w) => WorkerFreeOrWaits(env, s, w);
    case SocketOf(k) => SocketFreeOrWaits(env, s, k);
    case StopperOf(i) => StopperFreeOrWaits(env, s, i);
    case AcceptorOf(i) => AcceptorFreeOrWaits(env, s, i);
    if Free(env, s, t) && Waits(s, t) {
      var u :| WaitsFor(s, t, u);
      WaitingIsStuck(env, s, t, u);
    }
  }

  lemma WaitingIsStuck(env: Env, s: State, t: Tid, u: Tid)
    requires WaitsFor(s, t, u)
    ensures !Free(env, s, t)
  {
  }

  // ---------------------------------------------------------------------------
  //  Every wait goes up
  // ---------------------------------------------------------------------------

  /** A worker that is waited for has a job to take or a cancelled context to see. */
  lemma AwaitedWorkerIsBusy(s: State, t: Tid, w: nat)
    requires Inv(s) && WaitsFor(s, t, WorkerOf(w))
    requires (t == ReadLoop && s.read.RExec?) || (t == Session && s.session.MWait?)
          || (t.StopperOf? && t.i < |s.stoppers| && s.stoppers[t.i].PWait?)
    ensures !Idle(s, WorkerOf(w))
  {
    assert TokenAt(s, w);
  }

  lemma WaitedForIsBusy(s: State, t: Tid, u: Tid)
    requires Inv(s) && WaitsFor(s, t, u)
    ensures !Idle(s, u)
  {
    assert HoldsSm(t, s.read, s.session, s.workerPc) <==> s.smHolder == Some(t);
    assert HoldsSm(u, s.read, s.session, s.workerPc) <==> s.smHolder == Some(u);
    assert HoldsMutex(u, s.read, s.workerPc, s.socketPc, s.acceptors) <==> s.mutex == Some(u);
    if (t == ReadLoop && s.read.RExec?) || (t == Session && s.session.MWait?)
       || (t.StopperOf? && t.i < |s.stoppers| && s.stoppers[t.i].PWait?) {
      AwaitedWorkerIsBusy(s, t, u.w);
    }
  }

  lemma WaitsRise(s: State, t: Tid, u: Tid)
    requires WmOk(s) && SmOk(s) && MutexOk(s) && SessionAfterRead(s.session, s.read) && WaitsFor(s, t, u)
    ensures Rank(s, t) < Rank(s, u)
  {
    assert HoldsSm(t, s.read, s.session, s.workerPc) <==> s.smHolder == Some(t);
    assert HoldsSm(u, s.read, s.session, s.workerPc) <==> s.smHolder == Some(u);
    assert HoldsMutex(u, s.read, s.workerPc, s.socketPc, s.acceptors) <==> s.mutex == Some(u);
  }

  /** Whoever is waited for has something to do, and is further up than who waits. */
  lemma WaitsGoUp(s: State, t: Tid, u: Tid)
    requires Inv(s) && WaitsFor(s, t, u)
    ensures !Idle(s, u)
    ensures Rank(s, t) < Rank(s, u)
  {
    WaitedForIsBusy(s, t, u);
    WaitsRise(s, t, u);
  }

  /** A chain of waits, each thread waiting for the next. */
  ghost predicate Chain(s: State, chain: seq<Tid>) {
    forall j :: 0 <= j < |chain| - 1 ==> WaitsFor(s, chain[j], chain[j + 1])
  }

  /** Every thread that has something to do can move, or is at the head of a chain of waits that
      ends in a thread that can. */
  lemma {:induction false} ChainToFreeThread(env: Env, s: State, t: Tid) returns (chain: seq<Tid>)
    requires Inv(s) && !Idle(s, t)
    ensures |chain| > 0 && chain[0] == t && Chain(s, chain)
    ensures Free(env, s, chain[|chain| - 1])
    decreases 8 - Rank(s, t)
  {
    BlockedIffWaits(env, s, t);
    if Free(env, s, t) {
      chain := [t];
    } else {
      var u :| WaitsFor(s, t, u);
      WaitsGoUp(s, t, u);
      var rest := ChainToFreeThread(env, s, u);
      chain := [t] + rest;
    }
  }

  /** Deadlock freedom: in every state a session can reach, in either mode, whoever waits waits in
      the end for a thread that can move. */
  lemma DeadlockFreedom(env: Env, schedule: seq<(Tid, Choice)>, t: Tid)
    requires !Idle(Run(env, INIT, schedule), t)
    ensures var s := Run(env, INIT, schedule);
            exists chain: seq<Tid> ::
              |chain| > 0 && chain[0] == t && Chain(s, chain) && Free(env, s, chain[|chain| - 1])
  {
    InvInit();
    RunKeepsInv(env, INIT, schedule);
    var chain := ChainToFreeThread(env, Run(env, INIT, schedule), t);
  }

  /** No cycle of waits: along any chain the rank rises. */
  lemma {:induction false} ChainRises(env: Env, s: State, chain: seq<Tid>, i: nat, j: nat)
    requires Inv(s) && Chain(s, chain) && i < j < |chain|
    ensures Rank(s, chain[i]) < Rank(s, chain[j])
    decreases j - i
  {
    WaitsGoUp(s, chain[i], chain[i + 1]);
    if i + 1 < j {
      ChainRises(env, s, chain, i + 1, j);
    }
  }
}
