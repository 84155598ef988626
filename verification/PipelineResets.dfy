/** What resets leave behind. A STREAM_RESET ends the sockets of its stream, a SESSION_RESET and the end of
    the session end all: what has been created before is then closed, its reader has ended, and it is out
    of the map, for good. */
module PipelineResets {
  import opened Basics
  import opened Protobuf
  import opened Pipeline
  import opened PipelineInvariants
  import opened PipelineProofs
  import PipelineDelivery

  // ---------------------------------------------------------------------------
  //  A step as an action
  // ---------------------------------------------------------------------------

  /** What a turn does to what the threads share. */
  function ActionOf(env: Env, s: State, t: Tid, c: Choice): Act {
    match t
    case ReadLoop => ActOf(ReadMove(env, s, c))
    case Session => ActOf(SessionMove(s, c))
    case WorkerOf(w) =>
      if w < |s.workers| && w < |s.workerPc| && w < |s.workerIds| then ActOf(WorkerMove(s, w, c)) else Quiet
    case SocketOf(k) =>
      if k < |s.sockets| && k < |s.socketPc| && k < |s.socketIds| then ActOf(SocketMove(s, k, c)) else Quiet
    case StopperOf(i) => if i < |s.stoppers| then ActOf(StopperMove(s, i)) else Quiet
    case AcceptorOf(i) => if i < |s.acceptors| then ActOf(AcceptorMove(s, i, c)) else Quiet
  }

  function ActOf<P>(move: Move<P>): Act {
    match move
    case Stuck => Quiet
    case Go(_, a) => a
  }

  ghost predicate SameShared(s: State, n: State) {
    && n.workers == s.workers && n.workerIds == s.workerIds && n.workerMap == s.workerMap
    && n.sockets == s.sockets && n.socketIds == s.socketIds && n.socketMap == s.socketMap
    && n.sends == s.sends && n.writes == s.writes
  }

  lemma QuietLeavesShared(s: State, t: Tid)
    ensures SameShared(Apply(s, t, Quiet), s)
  {
  }

  lemma ReadActs(env: Env, s: State, c: Choice)
    ensures SameShared(Apply(s, ReadLoop, ActOf(ReadMove(env, s, c))), ReadStep(env, s, c))
  {
    if ReadMove(env, s, c).Stuck? { QuietLeavesShared(s, ReadLoop); }
  }

  lemma SessionActs(s: State, c: Choice)
    ensures SameShared(Apply(s, Session, ActOf(SessionMove(s, c))), SessionStep(s, c))
  {
    if SessionMove(s, c).Stuck? { QuietLeavesShared(s, Session); }
  }

  lemma WorkerActs(s: State, w: nat, c: Choice)
    requires w < |s.workers| && w < |s.workerPc| && w < |s.workerIds|
    ensures SameShared(Apply(s, WorkerOf(w), ActOf(WorkerMove(s, w, c))), WorkerStep(s, w, c))
  {
    if WorkerMove(s, w, c).Stuck? { QuietLeavesShared(s, WorkerOf(w)); }
  }

  lemma SocketActs(s: State, k: nat, c: Choice)
    requires k < |s.sockets| && k < |s.socketPc| && k < |s.socketIds|
    ensures SameShared(Apply(s, SocketOf(k), ActOf(SocketMove(s, k, c))), SocketStep(s, k, c))
  {
    if SocketMove(s, k, c).Stuck? { QuietLeavesShared(s, SocketOf(k)); }
  }

  lemma StepActs(env: Env, s: State, t: Tid, c: Choice)
    ensures SameShared(Apply(s, t, ActionOf(env, s, t, c)), Step(env, s, t, c))
  {
    QuietLeavesShared(s, t);
    match t
    case ReadLoop => ReadActs(env, s, c);
    case Session => SessionActs(s, c);
    case WorkerOf(w) => if w < |s.workers| && w < |s.workerPc| && w < |s.workerIds| { WorkerActs(s, w, c); }
    case SocketOf(k) => if k < |s.sockets| && k < |s.socketPc| && k < |s.socketIds| { SocketActs(s, k, c); }
    case StopperOf(i) =>
    case AcceptorOf(i) =>
  }

  lemma OnlyItsOwnCompletes(env: Env, s: State, t: Tid, c: Choice)
    ensures ActionOf(env, s, t, c).Complete? ==> t == WorkerOf(ActionOf(env, s, t, c).w)
  {
  }

  // ---------------------------------------------------------------------------
  //  Sockets that are gone stay gone
  // ---------------------------------------------------------------------------

  /** The connection is closed, the reader has ended, and the map does not name the socket. */
  predicate Gone(s: State, k: nat) {
    && k < |s.sockets| && k < |s.socketPc| && k < |s.socketIds|
    && s.sockets[k].closed && s.socketPc[k].SDone? && !Registered(k, s.socketIds, s.socketMap)
  }

  lemma ApplyLeavesGone(s: State, t: Tid, a: Act, k: nat)
    requires SameLengths(s) && Gone(s, k)
    ensures Gone(Apply(s, t, a), k) && Apply(s, t, a).socketIds[k] == s.socketIds[k]
  {
  }

  lemma StepLeavesGone(env: Env, s: State, t: Tid, c: Choice, k: nat)
    requires SameLengths(s) && Gone(s, k)
    ensures Gone(Step(env, s, t, c), k)
  {
    match t
    case ReadLoop =>
      if ReadMove(env, s, c).Go? { ApplyLeavesGone(s, t, ReadMove(env, s, c).act, k); }
    case Session =>
      if SessionMove(s, c).Go? { ApplyLeavesGone(s, t, SessionMove(s, c).act, k); }
    case WorkerOf(w) =>
      if w < |s.workers| && WorkerMove(s, w, c).Go? { ApplyLeavesGone(s, t, WorkerMove(s, w, c).act, k); }
    case SocketOf(j) =>
      if j < |s.sockets| && SocketMove(s, j, c).Go? { ApplyLeavesGone(s, t, SocketMove(s, j, c).act, k); }
    case StopperOf(i) =>
      if i < |s.stoppers| && StopperMove(s, i).Go? { ApplyLeavesGone(s, t, StopperMove(s, i).act, k); }
    case AcceptorOf(i) =>
      if i < |s.acceptors| && AcceptorMove(s, i, c).Go? { ApplyLeavesGone(s, t, AcceptorMove(s, i, c).act, k); }
  }

  /** Ids are given once and for all. */
  lemma StepKeepsIds(env: Env, s: State, t: Tid, c: Choice)
    ensures var n := Step(env, s, t, c); s.workerIds <= n.workerIds && s.socketIds <= n.socketIds
  {
  }

  /** Of the first n sockets, those of the stream are gone. */
  ghost predicate AllGone(s: State, id: int32, n: nat) {
    n <= |s.socketIds| && forall k :: 0 <= k < n && s.socketIds[k] == id ==> Gone(s, k)
  }

  lemma StepLeavesAllGone(env: Env, s: State, t: Tid, c: Choice, id: int32, n: nat)
    requires SameLengths(s) && AllGone(s, id, n)
    ensures AllGone(Step(env, s, t, c), id, n)
  {
    StepKeepsIds(env, s, t, c);
    forall k | 0 <= k < n && Step(env, s, t, c).socketIds[k] == id ensures Gone(Step(env, s, t, c), k) {
      StepLeavesGone(env, s, t, c, k);
    }
  }

  /** What the map does not name has ended. */
  lemma UnnamedAreGone(s: State, id: int32)
    requires SameLengths(s) && LiveOk(s) && ClosedOk(s) && id !in s.socketMap
    ensures AllGone(s, id, |s.sockets|)
  {
    forall k | 0 <= k < |s.sockets| && s.socketIds[k] == id ensures Gone(s, k) {
      assert !Names(s.socketMap, s.socketIds, id, k);
    }
  }

  // ---------------------------------------------------------------------------
  //  STREAM_RESET: when the worker gives the lock back
  // ---------------------------------------------------------------------------

  /** A worker that is about to give the lock of the sockets back has none of its stream in the map. */
  ghost predicate UnlockOk(workerIds: seq<int32>, workerPc: seq<WorkerPc>, socketMap: map<int32, nat>) {
    forall w :: 0 <= w < |workerPc| && w < |workerIds| && workerPc[w].WResetUnlock? ==> workerIds[w] !in socketMap
  }

  lemma WorkerReachesUnlock(s: State, w: nat, c: Choice)
    requires w < |s.workers| && w < |s.workerPc| && w < |s.workerIds|
    ensures var n := WorkerStep(s, w, c);
            w < |n.workerPc| && n.workerPc[w].WResetUnlock? && !s.workerPc[w].WResetUnlock? ==>
              s.workerIds[w] !in n.socketMap
  {
  }

  predicate OnMap(a: Act) {
    a.StartSocket? || a.Unregister?
  }

  lemma ReadLeavesMap(env: Env, s: State, c: Choice)
    requires s.smHolder.Some? && !s.read.RAllWait?
    ensures ReadMove(env, s, c).Go? ==> !OnMap(ReadMove(env, s, c).act)
  {
  }

  lemma SessionLeavesMap(s: State, c: Choice)
    requires !s.session.MSockWait?
    ensures SessionMove(s, c).Go? ==> !OnMap(SessionMove(s, c).act)
  {
  }

  lemma WorkerLeavesMap(s: State, w: nat, c: Choice)
    requires w < |s.workers| && w < |s.workerPc| && w < |s.workerIds| && !s.workerPc[w].WResetWait?
    ensures WorkerMove(s, w, c).Go? ==> !OnMap(WorkerMove(s, w, c).act)
  {
  }

  /** While a worker holds the lock, nobody else changes the map. */
  lemma OthersLeaveMap(env: Env, s: State, t: Tid, c: Choice)
    requires s.smHolder.Some? && !HoldsSm(t, s.read, s.session, s.workerPc)
    ensures Step(env, s, t, c).socketMap == s.socketMap
  {
    match t
    case ReadLoop => ReadLeavesMap(env, s, c);
    case Session => SessionLeavesMap(s, c);
    case WorkerOf(w) =>
      if w < |s.workers| && w < |s.workerPc| && w < |s.workerIds| { WorkerLeavesMap(s, w, c); }
    case SocketOf(k) =>
    case StopperOf(i) =>
    case AcceptorOf(i) =>
  }

  lemma StepLeavesOtherPcs(env: Env, s: State, t: Tid, c: Choice, w: nat)
    requires SameLengths(s) && t != WorkerOf(w)
    ensures var n := Step(env, s, t, c);
            && |s.workerPc| <= |n.workerPc|
            && (w < |s.workerPc| ==> n.workerPc[w] == s.workerPc[w])
            && (|s.workerPc| <= w < |n.workerPc| ==> n.workerPc[w].WSelect?)
  {
  }

  lemma StepKeepsUnlock(env: Env, s: State, t: Tid, c: Choice)
    requires SameLengths(s) && SmOk(s) && UnlockOk(s.workerIds, s.workerPc, s.socketMap)
    ensures var n := Step(env, s, t, c); UnlockOk(n.workerIds, n.workerPc, n.socketMap)
  {
    var n := Step(env, s, t, c);
    StepKeepsIds(env, s, t, c);
    forall w | 0 <= w < |n.workerPc| && w < |n.workerIds| && n.workerPc[w].WResetUnlock?
      ensures n.workerIds[w] !in n.socketMap
    {
      if t == WorkerOf(w) {
        WorkerReachesUnlock(s, w, c);
      } else {
        StepLeavesOtherPcs(env, s, t, c, w);
        assert HoldsSm(WorkerOf(w), s.read, s.session, s.workerPc);
        assert !HoldsSm(t, s.read, s.session, s.workerPc);
        OthersLeaveMap(env, s, t, c);
      }
    }
  }

  // ---------------------------------------------------------------------------
  //  Who waits for a reader has closed its connection
  // ---------------------------------------------------------------------------

  /** A thread that waits for the reader of a socket to end. */
  predicate WaitsForReader(s: State, t: Tid, k: nat) {
    match t
    case ReadLoop => s.read.RAllWait? && s.read.k == k
    case Session => s.session.MSockWait? && s.session.k == k
    case WorkerOf(w) => w < |s.workerPc| && s.workerPc[w] == WResetWait(k)
    case _ => false
  }

  ghost predicate WaitedForAreClosed(s: State) {
    forall t, k: nat :: WaitsForReader(s, t, k) && k < |s.sockets| ==> IsClosed(s, k)
  }

  lemma StepLeavesClosed(env: Env, s: State, t: Tid, c: Choice, k: nat)
    requires IsClosed(s, k)
    ensures IsClosed(Step(env, s, t, c), k)
  {
    StepActs(env, s, t, c);
  }

  lemma ReadBeginsToWait(env: Env, s: State, c: Choice)
    ensures var n := ReadStep(env, s, c);
            n.read.RAllWait? ==> n.read == s.read || ActionOf(env, s, ReadLoop, c) == CloseSocket(n.read.k)
  {
  }

  lemma SessionBeginsToWait(env: Env, s: State, c: Choice)
    ensures var n := SessionStep(s, c);
            n.session.MSockWait? ==> n.session == s.session || ActionOf(env, s, Session, c) == CloseSocket(n.session.k)
  {
  }

  lemma WorkerBeginsToWait(env: Env, s: State, w: nat, c: Choice)
    ensures var n := WorkerStep(s, w, c);
            w < |n.workerPc| && n.workerPc[w].WResetWait? ==>
              || (w < |s.workerPc| && n.workerPc[w] == s.workerPc[w])
              || ActionOf(env, s, WorkerOf(w), c) == CloseSocket(n.workerPc[w].k)
  {
  }

  lemma BeginsToWait(env: Env, s: State, t: Tid, c: Choice, k: nat)
    ensures WaitsForReader(Step(env, s, t, c), t, k) ==>
              WaitsForReader(s, t, k) || ActionOf(env, s, t, c) == CloseSocket(k)
  {
    match t
    case ReadLoop => ReadBeginsToWait(env, s, c);
    case Session => SessionBeginsToWait(env, s, c);
    case WorkerOf(w) => WorkerBeginsToWait(env, s, w, c);
    case _ =>
  }

  lemma OthersDoNotBegin(env: Env, s: State, t: Tid, c: Choice, u: Tid, k: nat)
    requires SameLengths(s) && t != u
    ensures WaitsForReader(Step(env, s, t, c), u, k) ==> WaitsForReader(s, u, k)
  {
    match u
    case ReadLoop => OthersLeaveReading(env, s, t, c);
    case Session => OthersLeaveSession(env, s, t, c);
    case WorkerOf(w) => StepLeavesOtherPcs(env, s, t, c, w);
    case _ =>
  }

  lemma OthersLeaveReading(env: Env, s: State, t: Tid, c: Choice)
    requires !t.ReadLoop?
    ensures var n := Step(env, s, t, c); n.read == s.read && n.pos == s.pos
  {
  }

  lemma OthersLeaveSession(env: Env, s: State, t: Tid, c: Choice)
    requires !t.Session?
    ensures Step(env, s, t, c).session == s.session
  {
  }

  /** Whoever waits for a reader waits for one that exists. */
  lemma WaitsForExisting(s: State, t: Tid, k: nat)
    requires SmOk(s) && WaitOk(s) && SameLengths(s) && WaitsForReader(s, t, k)
    ensures k < |s.sockets|
  {
    assert HoldsSm(t, s.read, s.session, s.workerPc) <==> s.smHolder == Some(t);
  }

  lemma StepKeepsWaitedFor(env: Env, s: State, t: Tid, c: Choice)
    requires SameLengths(s) && SmOk(s) && WaitOk(s) && WaitedForAreClosed(s)
    ensures WaitedForAreClosed(Step(env, s, t, c))
  {
    var n := Step(env, s, t, c);
    forall u, k: nat | WaitsForReader(n, u, k) && k < |n.sockets| ensures IsClosed(n, k) {
      if t == u {
        BeginsToWait(env, s, t, c, k);
      } else {
        OthersDoNotBegin(env, s, t, c, u, k);
      }
      if WaitsForReader(s, u, k) {
        WaitsForExisting(s, u, k);
        StepLeavesClosed(env, s, t, c, k);
      } else {
        StepActs(env, s, t, c);
      }
    }
  }

  lemma {:induction false} RunKeepsWaitedFor(env: Env, s: State, schedule: seq<(Tid, Choice)>)
    requires Inv(s) && WaitedForAreClosed(s)
    ensures WaitedForAreClosed(Run(env, s, schedule))
    decreases |schedule|
  {
    if schedule != [] {
      StepKeepsInv(env, s, schedule[0].0, schedule[0].1);
      StepKeepsWaitedFor(env, s, schedule[0].0, schedule[0].1);
      RunKeepsWaitedFor(env, Step(env, s, schedule[0].0, schedule[0].1), schedule[1..]);
    }
  }

  /** In every reachable state, in either mode: whoever waits for the reader of a socket has closed its
      connection before, so that the reader's next read fails and it cannot go on for ever. */
  lemma WaitsOnlyForClosed(env: Env, schedule: seq<(Tid, Choice)>, t: Tid, k: nat, c: Choice)
    requires WaitsForReader(Run(env, INIT, schedule), t, k)
    ensures var s := Run(env, INIT, schedule);
            && k < |s.sockets| && k < |s.socketPc| && k < |s.socketIds|
            && s.sockets[k].closed
            && (s.socketPc[k].SRead? ==> SocketStep(s, k, c).socketPc == s.socketPc[k := SErrStop])
  {
    InvInit();
    RunKeepsInv(env, INIT, schedule);
    RunKeepsWaitedFor(env, INIT, schedule);
    WaitsForExisting(Run(env, INIT, schedule), t, k);
  }

  // ---------------------------------------------------------------------------
  //  STREAM_RESET: what was there before it is gone
  // ---------------------------------------------------------------------------

  /** StopSocket has returned. */
  predicate PastReset(pc: WorkerPc) {
    pc.WResetStop? || (pc.WFinish? && pc.job.ResetJob?)
  }

  /** The j-th job of the worker is a reset, and its StopSocket has returned. */
  predicate ResetIsOver(worker: Worker, pc: WorkerPc, j: nat) {
    && j < |worker.enqueued| && worker.enqueued[j].ResetJob?
    && (j < |worker.done| || (j == |worker.done| && PastReset(pc)))
  }

  ghost predicate ResetEndsSocketsOf(s: State, w: nat, j: nat, n: nat) {
    && w < |s.workers| && w < |s.workerPc| && w < |s.workerIds| && n <= |s.socketIds|
    && (ResetIsOver(s.workers[w], s.workerPc[w], j) ==> AllGone(s, s.workerIds[w], n))
  }

  function JustDone(done: seq<Job>, pc: WorkerPc): seq<Job> {
    if pc.WFinish? then done + [pc.job] else done
  }

  /** What a worker does to its ledger. */
  lemma WorkerEdge(s: State, w: nat, c: Choice)
    requires w < |s.workers| && w < |s.workerPc| && w < |s.workerIds|
    ensures var n := WorkerStep(s, w, c);
            && w < |n.workers| && n.workers[w].enqueued == s.workers[w].enqueued
            && n.workers[w].done == JustDone(s.workers[w].done, s.workerPc[w])
  {
  }

  lemma MoveComesPast(s: State, w: nat, c: Choice)
    requires w < |s.workers| && w < |s.workerPc| && w < |s.workerIds| && WorkerMove(s, w, c).Go?
    ensures PastReset(WorkerMove(s, w, c).pc) ==> PastReset(s.workerPc[w]) || s.workerPc[w].WResetUnlock?
  {
  }

  lemma WorkerComesPast(s: State, w: nat, c: Choice)
    requires w < |s.workers| && w < |s.workerPc| && w < |s.workerIds|
    ensures var n := WorkerStep(s, w, c);
            && w < |n.workerPc|
            && (PastReset(n.workerPc[w]) ==> PastReset(s.workerPc[w]) || s.workerPc[w].WResetUnlock?)
  {
    if WorkerMove(s, w, c).Go? {
      MoveComesPast(s, w, c);
    }
  }

  lemma WorkerReturns(s: State, w: nat, c: Choice)
    requires w < |s.workers| && w < |s.workerPc| && w < |s.workerIds| && s.workerPc[w].WFinish?
    ensures w < |WorkerStep(s, w, c).workerPc| && WorkerStep(s, w, c).workerPc[w].WSelect?
  {
  }

  /** The step with which StopSocket returns is the one that gives the lock back. */
  lemma WorkerEndsReset(s: State, w: nat, c: Choice, j: nat)
    requires w < |s.workers| && w < |s.workerPc| && w < |s.workerIds| && LedgerOf(s.workers[w], s.workerPc[w])
    ensures var n := WorkerStep(s, w, c);
            && w < |n.workers| && w < |n.workerPc|
            && (ResetIsOver(n.workers[w], n.workerPc[w], j) ==>
                  ResetIsOver(s.workers[w], s.workerPc[w], j) || s.workerPc[w].WResetUnlock?)
  {
    WorkerEdge(s, w, c);
    WorkerComesPast(s, w, c);
    if s.workerPc[w].WFinish? {
      WorkerReturns(s, w, c);
      assert s.workers[w].enqueued[|s.workers[w].done|] == s.workerPc[w].job;
    }
  }

  /** One worker's ledger under an action that is not the completion of its own job. */
  ghost predicate OnlyEnqueues(s: State, n: State, w: nat) {
    && w < |s.workers| && w < |n.workers|
    && n.workers[w].done == s.workers[w].done && s.workers[w].enqueued <= n.workers[w].enqueued
  }

  lemma ApplyOnlyEnqueues(s: State, t: Tid, a: Act, w: nat)
    requires w < |s.workers| && (a.Complete? ==> a.w != w)
    ensures OnlyEnqueues(s, Apply(s, t, a), w)
  {
  }

  lemma OthersOnlyEnqueue(env: Env, s: State, t: Tid, c: Choice, w: nat)
    requires w < |s.workers| && t != WorkerOf(w)
    ensures OnlyEnqueues(s, Step(env, s, t, c), w)
  {
    ApplyOnlyEnqueues(s, t, ActionOf(env, s, t, c), w);
    OnlyItsOwnCompletes(env, s, t, c);
    StepActs(env, s, t, c);
  }

  /** A job that is enqueued has not begun. */
  lemma EnqueuedIsNotOver(worker: Worker, worker': Worker, pc: WorkerPc, j: nat)
    requires LedgerOf(worker, pc) && worker'.done == worker.done && worker.enqueued <= worker'.enqueued
    ensures ResetIsOver(worker', pc, j) ==> ResetIsOver(worker, pc, j)
  {
  }

  lemma OthersLeaveReset(env: Env, s: State, t: Tid, c: Choice, w: nat, j: nat)
    requires SameLengths(s) && w < |s.workers| && t != WorkerOf(w) && LedgerOf(s.workers[w], s.workerPc[w])
    ensures var n := Step(env, s, t, c);
            && w < |n.workers| && w < |n.workerPc|
            && (ResetIsOver(n.workers[w], n.workerPc[w], j) ==> ResetIsOver(s.workers[w], s.workerPc[w], j))
  {
    OthersOnlyEnqueue(env, s, t, c, w);
    StepLeavesOtherPcs(env, s, t, c, w);
    EnqueuedIsNotOver(s.workers[w], Step(env, s, t, c).workers[w], s.workerPc[w], j);
  }

  lemma StepKeepsResetEnds(env: Env, s: State, t: Tid, c: Choice, w: nat, j: nat, n: nat)
    requires SameLengths(s) && LedgerOk(s) && LiveOk(s) && ClosedOk(s)
    requires UnlockOk(s.workerIds, s.workerPc, s.socketMap) && ResetEndsSocketsOf(s, w, j, n)
    ensures ResetEndsSocketsOf(Step(env, s, t, c), w, j, n)
  {
    StepKeepsIds(env, s, t, c);
    assert LedgerOf(s.workers[w], s.workerPc[w]);
    if t == WorkerOf(w) {
      WorkerEndsReset(s, w, c, j);
      if s.workerPc[w].WResetUnlock? {
        UnnamedAreGone(s, s.workerIds[w]);
      }
    } else {
      OthersLeaveReset(env, s, t, c, w, j);
    }
    if AllGone(s, s.workerIds[w], n) {
      StepLeavesAllGone(env, s, t, c, s.workerIds[w], n);
    }
  }

  lemma {:induction false} RunKeepsResetEnds(env: Env, s: State, schedule: seq<(Tid, Choice)>, w: nat, j: nat, n: nat)
    requires Inv(s) && UnlockOk(s.workerIds, s.workerPc, s.socketMap) && ResetEndsSocketsOf(s, w, j, n)
    ensures ResetEndsSocketsOf(Run(env, s, schedule), w, j, n)
    decreases |schedule|
  {
    if schedule != [] {
      StepKeepsInv(env, s, schedule[0].0, schedule[0].1);
      StepKeepsUnlock(env, s, schedule[0].0, schedule[0].1);
      StepKeepsResetEnds(env, s, schedule[0].0, schedule[0].1, w, j, n);
      RunKeepsResetEnds(env, Step(env, s, schedule[0].0, schedule[0].1), schedule[1..], w, j, n);
    }
  }

  lemma {:induction false} RunKeepsUnlock(env: Env, s: State, schedule: seq<(Tid, Choice)>)
    requires Inv(s) && UnlockOk(s.workerIds, s.workerPc, s.socketMap)
    ensures var n := Run(env, s, schedule); UnlockOk(n.workerIds, n.workerPc, n.socketMap)
    decreases |schedule|
  {
    if schedule != [] {
      StepKeepsInv(env, s, schedule[0].0, schedule[0].1);
      StepKeepsUnlock(env, s, schedule[0].0, schedule[0].1);
      RunKeepsUnlock(env, Step(env, s, schedule[0].0, schedule[0].1), schedule[1..]);
    }
  }

  /** In every reachable state: a worker that is about to give the lock of the sockets back after a reset
      has none of its stream in the map, and every socket of the stream is closed and has ended. */
  lemma ResetUnlocksWhenGone(env: Env, schedule: seq<(Tid, Choice)>, w: nat)
    requires var s := Run(env, INIT, schedule); w < |s.workerPc| && s.workerPc[w].WResetUnlock?
    ensures var s := Run(env, INIT, schedule);
            && w < |s.workerIds| && s.workerIds[w] !in s.socketMap
            && forall k :: 0 <= k < |s.socketIds| && s.socketIds[k] == s.workerIds[w] ==>
                 k < |s.sockets| && k < |s.socketPc| && s.sockets[k].closed && s.socketPc[k].SDone?
  {
    InvInit();
    RunKeepsInv(env, INIT, schedule);
    RunKeepsUnlock(env, INIT, schedule);
    var s := Run(env, INIT, schedule);
    UnnamedAreGone(s, s.workerIds[w]);
    forall k | 0 <= k < |s.socketIds| && s.socketIds[k] == s.workerIds[w]
      ensures s.sockets[k].closed && s.socketPc[k].SDone?
    {
      assert Gone(s, k);
    }
  }

  /** In either mode, under every schedule, however often the stream is started: if the j-th job of a
      worker had not begun at some moment, and is a STREAM_RESET that has been executed by a later moment,
      then each socket of the stream that was there at the first is at the second closed, has ended, and
      is out of the map. */
  lemma ResetEndsSockets(env: Env, before: seq<(Tid, Choice)>, after: seq<(Tid, Choice)>, w: nat, j: nat, k: nat)
    requires var s := Run(env, INIT, before);
             && w < |s.workers| && w < |s.workerPc| && w < |s.workerIds|
             && |s.workers[w].done| + |Running(s.workerPc[w])| <= j
             && k < |s.socketIds| && s.socketIds[k] == s.workerIds[w]
    requires var n := Run(env, Run(env, INIT, before), after);
             && w < |n.workers| && j < |n.workers[w].done| && n.workers[w].done[j].ResetJob?
    ensures var n := Run(env, Run(env, INIT, before), after);
            && k < |n.sockets| && k < |n.socketPc| && k < |n.socketIds|
            && n.sockets[k].closed && n.socketPc[k].SDone? && !Registered(k, n.socketIds, n.socketMap)
  {
    InvInit();
    RunKeepsInv(env, INIT, before);
    RunKeepsUnlock(env, INIT, before);
    var s := Run(env, INIT, before);
    RunKeepsInv(env, s, after);
    RunKeepsResetEnds(env, s, after, w, j, |s.socketIds|);
    RunKeepsIds(env, s, after);
    var n := Run(env, s, after);
    assert LedgerOf(n.workers[w], n.workerPc[w]);
    assert n.workers[w].enqueued[j] == n.workers[w].done[j];
    assert Gone(n, k);
  }

  lemma {:induction false} RunKeepsIds(env: Env, s: State, schedule: seq<(Tid, Choice)>)
    ensures var n := Run(env, s, schedule); s.workerIds <= n.workerIds && s.socketIds <= n.socketIds
    decreases |schedule|
  {
    if schedule != [] {
      StepKeepsIds(env, s, schedule[0].0, schedule[0].1);
      RunKeepsIds(env, Step(env, s, schedule[0].0, schedule[0].1), schedule[1..]);
    }
  }

  // ---------------------------------------------------------------------------
  //  STREAM_RESET: a stream that is started once has no socket after it
  // ---------------------------------------------------------------------------

  /** The worker has executed a reset, or is past the StopSocket of one. */
  predicate HasReset(worker: Worker, pc: WorkerPc) {
    ResetJob in worker.done || PastReset(pc)
  }

  ghost predicate NoneAfterReset(workers: seq<Worker>, workerIds: seq<int32>, workerPc: seq<WorkerPc>,
                                 socketMap: map<int32, nat>, id: int32) {
    forall w :: 0 <= w < |workers| && w < |workerIds| && w < |workerPc| ==>
      workerIds[w] == id && HasReset(workers[w], workerPc[w]) ==> id !in socketMap
  }

  ghost predicate NoneAfterResetIn(s: State, id: int32) {
    NoneAfterReset(s.workers, s.workerIds, s.workerPc, s.socketMap, id)
  }

  lemma WorkerGetsReset(s: State, w: nat, c: Choice)
    requires w < |s.workers| && w < |s.workerPc| && w < |s.workerIds|
    ensures var n := WorkerStep(s, w, c);
            && w < |n.workers| && w < |n.workerPc|
            && (HasReset(n.workers[w], n.workerPc[w]) ==>
                  HasReset(s.workers[w], s.workerPc[w]) || s.workerPc[w].WResetUnlock?)
  {
    WorkerEdge(s, w, c);
    WorkerComesPast(s, w, c);
  }

  lemma OthersGetNoReset(env: Env, s: State, t: Tid, c: Choice, w: nat)
    requires SameLengths(s) && w < |s.workers| && t != WorkerOf(w)
    ensures var n := Step(env, s, t, c);
            && w < |n.workers| && w < |n.workerPc|
            && (HasReset(n.workers[w], n.workerPc[w]) ==> HasReset(s.workers[w], s.workerPc[w]))
  {
    OthersOnlyEnqueue(env, s, t, c, w);
    StepLeavesOtherPcs(env, s, t, c, w);
  }

  lemma NewWorkersAreFresh(env: Env, s: State, t: Tid, c: Choice, w: nat)
    requires SameLengths(s) && |s.workers| <= w < |Step(env, s, t, c).workers|
    ensures Step(env, s, t, c).workers[w] == FRESH_WORKER
    ensures w < |Step(env, s, t, c).workerPc| ==> Step(env, s, t, c).workerPc[w].WSelect?
  {
    StepActs(env, s, t, c);
    StepLeavesOtherPcs(env, s, t, c, w);
  }

  /** A socket is made by the read loop that is opening the stream, or by the handler that has sent its
      STREAM_START. */
  lemma NewSocketIsOpened(env: Env, s: State, t: Tid, c: Choice)
    ensures var n, a := Step(env, s, t, c), ActionOf(env, s, t, c);
            && n.socketIds == (if a.StartSocket? then s.socketIds + [a.id] else s.socketIds)
            && (a.StartSocket? ==>
                  || (t.ReadLoop? && s.read == RSockStart(a.id))
                  || (t.AcceptorOf? && t.i < |s.acceptors| && s.acceptors[t.i] == ASockStart(a.id)))
  {
    StepActs(env, s, t, c);
  }

  lemma ApplyAddsToMap(s: State, t: Tid, a: Act, id: int32)
    ensures id in Apply(s, t, a).socketMap ==> id in s.socketMap || a == StartSocket(id)
  {
  }

  /** In destination mode the map gets a stream only from the read loop that is opening it. */
  lemma OnlyOpeningAdds(env: Env, s: State, t: Tid, c: Choice, id: int32)
    requires s.acceptors == []
    ensures id in Step(env, s, t, c).socketMap ==> id in s.socketMap || (t.ReadLoop? && s.read == RSockStart(id))
  {
    StepActs(env, s, t, c);
    ApplyAddsToMap(s, t, ActionOf(env, s, t, c), id);
    NewSocketIsOpened(env, s, t, c);
  }

  /** While a stream is being opened, nothing has been done for it. */
  lemma NothingDoneWhileOpening(env: Env, s: State, id: int32, w: nat)
    requires SameLengths(s) && LedgerOk(s) && PipelineDelivery.Stream(env, s, id)
    requires PipelineDelivery.Opening(s.read, id) && w < |s.workers| && s.workerIds[w] == id
    ensures !HasReset(s.workers[w], s.workerPc[w])
  {
    assert PipelineDelivery.Given([], s.workers[w].enqueued, id in s.workerMap,
                                  PipelineDelivery.InFlight(s.read, s.workerIds, id));
    assert LedgerOf(s.workers[w], s.workerPc[w]);
  }

  lemma StepKeepsNone(env: Env, s: State, t: Tid, c: Choice, id: int32)
    requires SameLengths(s) && LedgerOk(s) && PipelineDelivery.Stream(env, s, id)
    requires UnlockOk(s.workerIds, s.workerPc, s.socketMap) && NoneAfterResetIn(s, id)
    ensures NoneAfterResetIn(Step(env, s, t, c), id)
  {
    var n := Step(env, s, t, c);
    StepKeepsIds(env, s, t, c);
    OnlyOpeningAdds(env, s, t, c, id);
    forall w | 0 <= w < |n.workers| && w < |n.workerIds| && w < |n.workerPc| && n.workerIds[w] == id
             && HasReset(n.workers[w], n.workerPc[w])
      ensures id !in n.socketMap
    {
      if w >= |s.workers| {
        NewWorkersAreFresh(env, s, t, c, w);
      } else if t == WorkerOf(w) {
        WorkerGetsReset(s, w, c);
      } else {
        OthersGetNoReset(env, s, t, c, w);
        if s.read == RSockStart(id) {
          NothingDoneWhileOpening(env, s, id, w);
        }
      }
    }
  }

  lemma {:induction false} RunKeepsNone(env: Env, s: State, schedule: seq<(Tid, Choice)>, id: int32)
    requires Inv(s) && UnlockOk(s.workerIds, s.workerPc, s.socketMap)
    requires PipelineDelivery.Stream(env, s, id) && PipelineDelivery.StartedOnce(env.input, id)
    requires NoneAfterResetIn(s, id)
    ensures NoneAfterResetIn(Run(env, s, schedule), id)
    decreases |schedule|
  {
    if schedule != [] {
      var t, c := schedule[0].0, schedule[0].1;
      StepKeepsInv(env, s, t, c);
      StepKeepsUnlock(env, s, t, c);
      PipelineDelivery.StepKeepsStream(env, s, t, c, id);
      StepKeepsNone(env, s, t, c, id);
      RunKeepsNone(env, Step(env, s, t, c), schedule[1..], id);
    }
  }

  /** In destination mode, for a stream that is started once: when its worker has executed a STREAM_RESET,
      every socket of the stream is closed and has ended, and the map does not name the stream. */
  lemma ResetClosesStream(env: Env, schedule: seq<(Tid, Choice)>, w: nat)
    requires !env.source
    requires var s := Run(env, INIT, schedule);
             && w < |s.workers| && w < |s.workerIds| && PipelineDelivery.StartedOnce(env.input, s.workerIds[w])
             && ResetJob in s.workers[w].done
    ensures var s := Run(env, INIT, schedule);
            && s.workerIds[w] !in s.socketMap
            && forall k :: 0 <= k < |s.socketIds| && s.socketIds[k] == s.workerIds[w] ==>
                 k < |s.sockets| && k < |s.socketPc| && s.sockets[k].closed && s.socketPc[k].SDone?
  {
    var s := Run(env, INIT, schedule);
    var id := s.workerIds[w];
    InvInit();
    PipelineDelivery.StreamInit(env, id);
    RunKeepsInv(env, INIT, schedule);
    RunKeepsNone(env, INIT, schedule, id);
    UnnamedAreGone(s, id);
    forall k | 0 <= k < |s.socketIds| && s.socketIds[k] == id ensures s.sockets[k].closed && s.socketPc[k].SDone? {
      assert Gone(s, k);
    }
  }

  // ---------------------------------------------------------------------------
  //  SESSION_RESET and the end of the session
  // ---------------------------------------------------------------------------

  ghost predicate EveryoneGone(s: State, n: nat) {
    n <= |s.socketIds| && forall k :: 0 <= k < n ==> Gone(s, k)
  }

  lemma StepLeavesEveryoneGone(env: Env, s: State, t: Tid, c: Choice, n: nat)
    requires SameLengths(s) && EveryoneGone(s, n)
    ensures EveryoneGone(Step(env, s, t, c), n)
  {
    StepKeepsIds(env, s, t, c);
    forall k | 0 <= k < n ensures Gone(Step(env, s, t, c), k) {
      StepLeavesGone(env, s, t, c, k);
    }
  }

  lemma EmptyMapMeansGone(s: State)
    requires SameLengths(s) && LiveOk(s) && ClosedOk(s) && s.socketMap == map[]
    ensures EveryoneGone(s, |s.sockets|)
  {
    forall k | 0 <= k < |s.sockets| ensures Gone(s, k) {
      assert !Names(s.socketMap, s.socketIds, s.socketIds[k], k);
    }
  }

  predicate IsSessionReset(m: TunnelMessage) {
    !m.ignorable && m.messageType == SESSION_RESET
  }

  predicate InStopAll(read: ReadPc) {
    read.RAllLock? || read.RAllPick? || read.RAllWait?
  }

  /** The read loop has handled the p-th message. */
  predicate Handled(read: ReadPc, pos: nat, p: nat) {
    pos > p + 1 || (pos == p + 1 && (read.RNext? || read.RDone?))
  }

  /** A session reset that is being handled is in StopAll, and when it is over all are gone. */
  ghost predicate ResetEndsAll(s: State, p: nat, n: nat) {
    && n <= |s.socketIds|
    && (s.pos <= p || (s.pos == p + 1 && InStopAll(s.read)) || EveryoneGone(s, n))
  }

  /** The read loop leaves StopAll only when the map is empty. */
  lemma ReadEndsStopAll(env: Env, s: State, c: Choice)
    ensures var n := ReadStep(env, s, c);
            && (InStopAll(s.read) ==> n.pos == s.pos && (InStopAll(n.read) || s.socketMap == map[]))
            && (s.pos < |env.input| && IsSessionReset(env.input[s.pos]) ==>
                  n.pos == s.pos || (n.pos == s.pos + 1 && InStopAll(n.read)))
            && s.pos <= n.pos <= s.pos + 1
            && (n.pos > s.pos ==> s.pos < |env.input|)
  {
  }

  lemma StepKeepsResetEndsAll(env: Env, s: State, t: Tid, c: Choice, p: nat, n: nat)
    requires SameLengths(s) && LiveOk(s) && ClosedOk(s) && ResetEndsAll(s, p, n)
    requires p < |env.input| && IsSessionReset(env.input[p])
    ensures ResetEndsAll(Step(env, s, t, c), p, n)
  {
    StepKeepsIds(env, s, t, c);
    if EveryoneGone(s, n) {
      StepLeavesEveryoneGone(env, s, t, c, n);
    } else if t.ReadLoop? {
      ReadEndsStopAll(env, s, c);
      if s.socketMap == map[] {
        EmptyMapMeansGone(s);
      }
    } else {
      OthersLeaveReading(env, s, t, c);
    }
  }

  lemma {:induction false} RunKeepsResetEndsAll(env: Env, s: State, schedule: seq<(Tid, Choice)>, p: nat, n: nat)
    requires Inv(s) && ResetEndsAll(s, p, n) && p < |env.input| && IsSessionReset(env.input[p])
    ensures ResetEndsAll(Run(env, s, schedule), p, n)
    decreases |schedule|
  {
    if schedule != [] {
      StepKeepsInv(env, s, schedule[0].0, schedule[0].1);
      StepKeepsResetEndsAll(env, s, schedule[0].0, schedule[0].1, p, n);
      RunKeepsResetEndsAll(env, Step(env, s, schedule[0].0, schedule[0].1), schedule[1..], p, n);
    }
  }

  /** In either mode: once a SESSION_RESET has been handled, every socket that was there at any moment
      before it was heard is closed, has ended, and is out of the map. */
  lemma SessionResetEndsSockets(env: Env, before: seq<(Tid, Choice)>, after: seq<(Tid, Choice)>, p: nat, k: nat)
    requires p < |env.input| && IsSessionReset(env.input[p])
    requires Run(env, INIT, before).pos <= p && k < |Run(env, INIT, before).sockets|
    requires var n := Run(env, Run(env, INIT, before), after); Handled(n.read, n.pos, p)
    ensures var n := Run(env, Run(env, INIT, before), after);
            && k < |n.sockets| && k < |n.socketPc| && k < |n.socketIds|
            && n.sockets[k].closed && n.socketPc[k].SDone? && !Registered(k, n.socketIds, n.socketMap)
  {
    InvInit();
    RunKeepsInv(env, INIT, before);
    var s := Run(env, INIT, before);
    RunKeepsResetEndsAll(env, s, after, p, |s.socketIds|);
    assert Gone(Run(env, s, after), k);
  }

  ghost predicate EndEndsAll(s: State, n: nat) {
    n <= |s.socketIds| && (s.session.MDone? ==> EveryoneGone(s, n))
  }

  lemma SessionEndsStopAll(s: State, c: Choice)
    ensures SessionStep(s, c).session.MDone? ==> s.session.MDone? || s.socketMap == map[]
  {
  }

  lemma StepKeepsEndEndsAll(env: Env, s: State, t: Tid, c: Choice, n: nat)
    requires SameLengths(s) && LiveOk(s) && ClosedOk(s) && EndEndsAll(s, n)
    ensures EndEndsAll(Step(env, s, t, c), n)
  {
    StepKeepsIds(env, s, t, c);
    if EveryoneGone(s, n) {
      StepLeavesEveryoneGone(env, s, t, c, n);
    } else if t.Session? {
      SessionEndsStopAll(s, c);
      if s.socketMap == map[] {
        EmptyMapMeansGone(s);
      }
    } else {
      OthersLeaveSession(env, s, t, c);
    }
  }

  lemma {:induction false} RunKeepsEndEndsAll(env: Env, s: State, schedule: seq<(Tid, Choice)>, n: nat)
    requires Inv(s) && EndEndsAll(s, n)
    ensures EndEndsAll(Run(env, s, schedule), n)
    decreases |schedule|
  {
    if schedule != [] {
      StepKeepsInv(env, s, schedule[0].0, schedule[0].1);
      StepKeepsEndEndsAll(env, s, schedule[0].0, schedule[0].1, n);
      RunKeepsEndEndsAll(env, Step(env, s, schedule[0].0, schedule[0].1), schedule[1..], n);
    }
  }

  /** In either mode: when the session has ended, every socket that was there at any moment before its end
      is closed, has ended, and is out of the map. */
  lemma SessionEndEndsSockets(env: Env, before: seq<(Tid, Choice)>, after: seq<(Tid, Choice)>, k: nat)
    requires !Run(env, INIT, before).session.MDone? && k < |Run(env, INIT, before).sockets|
    requires Run(env, Run(env, INIT, before), after).session.MDone?
    ensures var n := Run(env, Run(env, INIT, before), after);
            && k < |n.sockets| && k < |n.socketPc| && k < |n.socketIds|
            && n.sockets[k].closed && n.socketPc[k].SDone? && !Registered(k, n.socketIds, n.socketMap)
  {
    InvInit();
    RunKeepsInv(env, INIT, before);
    var s := Run(env, INIT, before);
    RunKeepsEndEndsAll(env, s, after, |s.socketIds|);
    assert Gone(Run(env, s, after), k);
  }
}
