/** What every step of the pipeline keeps. Each part of the invariant speaks of the few components
    of the state it depends on, so that a step which leaves those alone keeps it trivially. */
module PipelineInvariants {
  import opened Basics
  import opened Protobuf
  import opened Pipeline

  // ---------------------------------------------------------------------------
  //  Locks have the holders their threads' positions say
  // ---------------------------------------------------------------------------

  predicate HoldsWm(pc: StopPc) {
    !pc.PWant? && !pc.PDone?
  }

  ghost predicate WmLock(holder: Option<nat>, stoppers: seq<StopPc>, read: ReadPc) {
    && (holder.Some? ==> holder.value < |stoppers| && HoldsWm(stoppers[holder.value]) && !read.RExec?)
    && (forall i :: 0 <= i < |stoppers| && HoldsWm(stoppers[i]) ==> holder == Some(i))
  }

  predicate HoldsSm(t: Tid, read: ReadPc, session: SessionPc, workerPc: seq<WorkerPc>) {
    match t
    case ReadLoop => read.RAllPick? || read.RAllWait?
    case Session => session.MSockPick? || session.MSockWait?
    case WorkerOf(w) =>
      w < |workerPc| && (workerPc[w].WResetFind? || workerPc[w].WResetWait? || workerPc[w].WResetUnlock?)
    case _ => false
  }

  ghost predicate SmLock(holder: Option<Tid>, read: ReadPc, session: SessionPc, workerPc: seq<WorkerPc>) {
    forall t :: HoldsSm(t, read, session, workerPc) <==> holder == Some(t)
  }

  predicate HoldsMutex(t: Tid, read: ReadPc, workerPc: seq<WorkerPc>, socketPc: seq<SocketPc>,
                       acceptors: seq<AcceptPc>) {
    match t
    case ReadLoop => read.RSendHold?
    case WorkerOf(w) => w < |workerPc| && workerPc[w].WSendHold?
    case SocketOf(k) => k < |socketPc| && (socketPc[k].SSendHold? || socketPc[k].SErrHold?)
    case AcceptorOf(i) => i < |acceptors| && acceptors[i].ASendHold?
    case _ => false
  }

  ghost predicate Mutex(holder: Option<Tid>, read: ReadPc, workerPc: seq<WorkerPc>, socketPc: seq<SocketPc>,
                        acceptors: seq<AcceptPc>) {
    forall t :: HoldsMutex(t, read, workerPc, socketPc, acceptors) <==> holder == Some(t)
  }

  // ---------------------------------------------------------------------------
  //  Maps and positions refer to what exists
  // ---------------------------------------------------------------------------

  /** A registry names for each id something created for that id, and the newest such thing. */
  ghost predicate Registry(ids: seq<int32>, m: map<int32, nat>) {
    && (forall id :: id in m ==> m[id] < |ids| && ids[m[id]] == id)
    && (forall x :: 0 <= x < |ids| && ids[x] in m ==> x <= m[ids[x]])
  }

  predicate Names(m: map<int32, nat>, ids: seq<int32>, id: int32, x: nat) {
    id in m && m[id] == x && x < |ids| && ids[x] == id
  }

  predicate ReadRefs(read: ReadPc, ids: seq<int32>, m: map<int32, nat>) {
    read.RExec? ==> read.w < |ids| && Names(m, ids, ids[read.w], read.w)
  }

  predicate StopperRefs(holder: Option<nat>, stoppers: seq<StopPc>, ids: seq<int32>, m: map<int32, nat>) {
    holder.Some? && holder.value < |stoppers| && HoldsWm(stoppers[holder.value]) ==>
      Names(m, ids, stoppers[holder.value].id, stoppers[holder.value].w)
  }

  ghost predicate Below(rest: set<nat>, n: nat) {
    forall w :: w in rest ==> w < n
  }

  ghost predicate SessionRefs(session: SessionPc, workers: nat) {
    match session
    case MStop(rest) => Below(rest, workers)
    case MRecv(w, rest) => w < workers && Below(rest, workers)
    case MClose(w, rest) => w < workers && Below(rest, workers)
    case MCancel(w, rest) => w < workers && Below(rest, workers)
    case MWait(w, rest) => w < workers && Below(rest, workers)
    case _ => true
  }

  predicate SameLengths(s: State) {
    && |s.workers| == |s.workerIds| == |s.workerPc|
    && |s.sockets| == |s.socketIds| == |s.socketPc|
  }

  // ---------------------------------------------------------------------------
  //  Sockets
  // ---------------------------------------------------------------------------

  /** Every socket whose reader has not terminated is registered under its own id. */
  ghost predicate LiveSockets(socketIds: seq<int32>, socketPc: seq<SocketPc>, m: map<int32, nat>) {
    forall k :: 0 <= k < |socketPc| && k < |socketIds| && !socketPc[k].SDone? ==>
      Names(m, socketIds, socketIds[k], k)
  }

  /** A reader that is done has closed its connection. */
  ghost predicate ClosedSockets(sockets: seq<Socket>, socketPc: seq<SocketPc>) {
    forall k :: 0 <= k < |socketPc| && k < |sockets| && (socketPc[k].SDone? || socketPc[k].SFinish?) ==>
      sockets[k].closed
  }

  /** The holder of the socket manager's lock, while it waits for a reader, waits for one that is
      registered under the id it is about to delete. */
  ghost predicate WaitRefs(holder: Option<Tid>, read: ReadPc, session: SessionPc, workerIds: seq<int32>,
                           workerPc: seq<WorkerPc>, socketIds: seq<int32>, m: map<int32, nat>) {
    match holder
    case Some(ReadLoop) => read.RAllWait? ==> Names(m, socketIds, read.id, read.k)
    case Some(Session) => session.MSockWait? ==> Names(m, socketIds, session.id, session.k)
    case Some(WorkerOf(w)) =>
      w < |workerPc| && w < |workerIds| && workerPc[w].WResetWait? ==>
        Names(m, socketIds, workerIds[w], workerPc[w].k)
    case _ => true
  }

  /** A worker writes to a socket of its own stream. */
  ghost predicate WriteRefs(workerIds: seq<int32>, workerPc: seq<WorkerPc>, socketIds: seq<int32>) {
    forall w :: 0 <= w < |workerPc| && w < |workerIds| && workerPc[w].WWrite? ==>
      workerPc[w].k < |socketIds| && socketIds[workerPc[w].k] == workerIds[w]
  }

  // ---------------------------------------------------------------------------
  //  Workers
  // ---------------------------------------------------------------------------

  /** The job a worker is in the middle of. */
  function Running(pc: WorkerPc): seq<Job> {
    match pc
    case WSelect => []
    case WDone => []
    case WFinish(job) => [job]
    case WLookup(p) => [DataJob(p)]
    case WWrite(p, _) => [DataJob(p)]
    case WStop(p) => [DataJob(p)]
    case WSendWant(p) => [DataJob(p)]
    case WSendHold(p) => [DataJob(p)]
    case _ => [ResetJob]
  }

  /** Jobs enqueued = jobs executed ++ running job ++ buffer, and the buffer is bounded. */
  predicate LedgerOf(worker: Worker, pc: WorkerPc) {
    && worker.enqueued == worker.done + Running(pc) + worker.chExec
    && |worker.chExec| <= BUF_SIZE
  }

  ghost predicate Ledger(workers: seq<Worker>, workerPc: seq<WorkerPc>) {
    forall w :: 0 <= w < |workers| && w < |workerPc| ==> LedgerOf(workers[w], workerPc[w])
  }

  /** Where the one stopper that holds the lock is. */
  function Stopping(holder: Option<nat>, stoppers: seq<StopPc>): StopPc {
    if holder.Some? && holder.value < |stoppers| then stoppers[holder.value] else PDone
  }

  /** Between the receive from chCancel of worker w and the call of what was received. */
  predicate SessionIsAt(session: SessionPc, w: nat) {
    (session.MClose? || session.MCancel?) && session.w == w
  }

  predicate StopperIsAt(stopping: StopPc, w: nat) {
    (stopping.PClose? || stopping.PCancel?) && stopping.w == w
  }

  /** From the receive from chCancel of worker w on. */
  predicate IsPast(stopping: StopPc, w: nat) {
    HoldsWm(stopping) && !stopping.PRecv? && stopping.w == w
  }

  /** chCancel of worker w: drained means that one thread is about to close it, closed and not yet
      cancelled that one thread is about to cancel. So nobody closes it twice and nobody cancels
      twice, and a worker only ends once it is cancelled. Until the session stops its workers, one
      that is registered is running: unless a stopper is just then taking it down, nobody has even
      picked up its cancel function; and a stopper deletes it only when it has ended. */
  predicate TokenOf(w: nat, worker: Worker, done: bool, registered: bool, session: SessionPc, stopping: StopPc) {
    && !(SessionIsAt(session, w) && StopperIsAt(stopping, w))
    && (worker.token.Taken? <==>
          (SessionIsAt(session, w) && session.MClose?) || (StopperIsAt(stopping, w) && stopping.PClose?))
    && (worker.token.Closed? && !worker.cancelled <==>
          (SessionIsAt(session, w) && session.MCancel?) || (StopperIsAt(stopping, w) && stopping.PCancel?))
    && (worker.cancelled ==> worker.token.Closed?)
    && worker.cancels == (if worker.cancelled then 1 else 0)
    && (done ==> worker.cancelled)
    && (session.MWait? && session.w == w ==> worker.cancelled)
    && (stopping.PWait? && stopping.w == w ==> worker.cancelled)
    && (stopping.PDelete? && stopping.w == w ==> worker.token.Closed?)
    && (stopping.PDelete? && stopping.w == w && (session.MReading? || session.MGetAll?) ==> done)
    && (registered && (session.MReading? || session.MGetAll?) && !IsPast(stopping, w) ==> worker.token.Full?)
  }

  predicate Registered(w: nat, ids: seq<int32>, m: map<int32, nat>) {
    w < |ids| && ids[w] in m && m[ids[w]] == w
  }

  ghost predicate Tokens(workers: seq<Worker>, workerPc: seq<WorkerPc>, ids: seq<int32>, m: map<int32, nat>,
                         session: SessionPc, stopping: StopPc) {
    forall w :: 0 <= w < |workers| && w < |workerPc| ==>
      TokenOf(w, workers[w], workerPc[w].WDone?, Registered(w, ids, m), session, stopping)
  }

  predicate SessionAfterRead(session: SessionPc, read: ReadPc) {
    session.MReading? || read.RDone?
  }

  // ---------------------------------------------------------------------------
  //  The invariant
  // ---------------------------------------------------------------------------

  ghost predicate WmOk(s: State) {
    WmLock(s.wmHolder, s.stoppers, s.read)
  }

  ghost predicate SmOk(s: State) {
    SmLock(s.smHolder, s.read, s.session, s.workerPc)
  }

  ghost predicate MutexOk(s: State) {
    Mutex(s.mutex, s.read, s.workerPc, s.socketPc, s.acceptors)
  }

  ghost predicate MapsOk(s: State) {
    SameLengths(s) && Registry(s.workerIds, s.workerMap) && Registry(s.socketIds, s.socketMap)
  }

  ghost predicate RefsOk(s: State) {
    && ReadRefs(s.read, s.workerIds, s.workerMap)
    && StopperRefs(s.wmHolder, s.stoppers, s.workerIds, s.workerMap)
    && SessionRefs(s.session, |s.workers|)
    && SessionAfterRead(s.session, s.read)
  }

  ghost predicate LiveOk(s: State) {
    LiveSockets(s.socketIds, s.socketPc, s.socketMap)
  }

  ghost predicate ClosedOk(s: State) {
    ClosedSockets(s.sockets, s.socketPc)
  }

  ghost predicate WaitOk(s: State) {
    WaitRefs(s.smHolder, s.read, s.session, s.workerIds, s.workerPc, s.socketIds, s.socketMap)
  }

  ghost predicate WriteOk(s: State) {
    WriteRefs(s.workerIds, s.workerPc, s.socketIds)
  }

  ghost predicate LedgerOk(s: State) {
    Ledger(s.workers, s.workerPc)
  }

  ghost predicate TokensOk(s: State) {
    && !s.panicked
    && Tokens(s.workers, s.workerPc, s.workerIds, s.workerMap, s.session, Stopping(s.wmHolder, s.stoppers))
  }

  ghost predicate Inv(s: State) {
    && WmOk(s) && SmOk(s) && MutexOk(s)
    && MapsOk(s) && RefsOk(s)
    && LiveOk(s) && ClosedOk(s) && WaitOk(s) && WriteOk(s)
    && LedgerOk(s) && TokensOk(s)
  }

  lemma InvInit()
    ensures Inv(INIT)
  {
  }
}
