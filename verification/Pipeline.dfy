/** The local proxy while one session lasts: client/awsclient.go, client/workermanager.go,
    client/worker.go, proxy/socket_manager.go, proxy/socket.go and the handlers of
    proxy/localproxy.go that join them, as one transition system over their goroutines.

    A step takes one goroutine from one position in its code to the next and does one thing to what
    the goroutines share. Between two steps any other goroutine can get in. A critical section in
    which nothing can block is one step; one that can block has a position for every place where
    it does, and holds its lock there. */
module Pipeline {
  import opened Basics
  import opened Protobuf

  /** channelBufSizePerStreamID of client/awsclient.go. */
  const BUF_SIZE := 10

  // ---------------------------------------------------------------------------
  //  What the threads share
  // ---------------------------------------------------------------------------

  datatype Tid =
    | ReadLoop            // keepReadingMessages
    | Session             // awsClient.start, then the clean-up of LocalProxy.Run
    | WorkerOf(w: nat)    // the goroutine of Worker.Start
    | SocketOf(k: nat)    // the goroutine of localSocket.Start
    | StopperOf(i: nat)   // the goroutine of workerManager.stop
    | AcceptorOf(i: nat)  // the handler of one accepted local connection

  /** A function handed to Worker.Exec. */
  datatype Job = DataJob(payload: seq<byte>) | ResetJob

  /** chCancel: holds the cancel function, was drained by someone, or is closed. */
  datatype Token = Full | Taken | Closed

  /** A worker; `enqueued` and `done` record every job it was ever given and every job it ran,
      `cancels` how often its context was cancelled. */
  datatype Worker = Worker(
    chExec: seq<Job>,
    token: Token,
    cancelled: bool,
    cancels: nat,
    enqueued: seq<Job>,
    done: seq<Job>)

  /** A local socket; `handed` records the payloads given to its Write, `got` what its reader has read. */
  datatype Socket = Socket(closed: bool, handed: seq<seq<byte>>, got: seq<seq<byte>>)

  /** A call of sendMessage, and whether the message was written to the websocket. */
  datatype Sent = Sent(sender: Tid, messageType: int32, streamId: int32, payload: seq<byte>, ok: bool)

  /** A call of localSocket.Write on socket k, and whether the connection took the payload. */
  datatype Write = Write(writer: Tid, k: nat, payload: seq<byte>, ok: bool)

  const FRESH_WORKER := Worker([], Full, false, 0, [], [])
  const FRESH_SOCKET := Socket(false, [], [])

  // ---------------------------------------------------------------------------
  //  Positions
  // ---------------------------------------------------------------------------

  /** keepReadingMessages, invokeEvent, OnStreamStart, OnSessionReset. */
  datatype ReadPc =
    | RNext                       // messageReader.Next
    | RStart(id: int32)           // workerManager.start wants the lock
    | RDial(id: int32)            // serviceMap and net.DialTimeout
    | RSockStart(id: int32)       // StartSocket wants the lock
    | RStop(id: int32)            // SendStreamReset: workerManager.stop
    | RSendWant(id: int32)        // sendMessage wants the write mutex
    | RSendHold(id: int32)        // sendMessage writes
    | RExecLock(id: int32, job: Job)  // workerManager.exec wants the read lock
    | RExec(w: nat, job: Job)     // Worker.Exec sends, under the read lock
    | RAllLock                    // StopAll wants the lock
    | RAllPick                    // the loop of StopAll
    | RAllWait(id: int32, k: nat) // localSocket.Stop waits for the reader
    | RDone

  /** The jobs of invokeEvent: OnData, and OnStreamReset with what follows it. */
  datatype WorkerPc =
    | WSelect
    | WLookup(payload: seq<byte>)         // Write looks the socket up under the read lock
    | WWrite(payload: seq<byte>, k: nat)  // localSocket.Write
    | WStop(payload: seq<byte>)           // SendStreamReset: workerManager.stop
    | WSendWant(payload: seq<byte>)
    | WSendHold(payload: seq<byte>)
    | WResetLock                          // StopSocket wants the lock
    | WResetFind
    | WResetWait(k: nat)
    | WResetUnlock
    | WResetStop                          // workerManager.stop
    | WFinish(job: Job)                   // the job returns
    | WDone

  /** The goroutine of localSocket.Start around suck. */
  datatype SocketPc =
    | SRead
    | SSendWant(data: seq<byte>)
    | SSendHold(data: seq<byte>)
    | SErrStop
    | SErrWant
    | SErrHold
    | SClose
    | SFinish
    | SDone

  /** workerManager.stop around Worker.Stop. */
  datatype StopPc =
    | PWant(id: int32)
    | PRecv(id: int32, w: nat)
    | PClose(id: int32, w: nat)
    | PCancel(id: int32, w: nat)
    | PWait(id: int32, w: nat)
    | PDelete(id: int32, w: nat)
    | PDone

  /** start: wait for the read loop, workerManager.stopAll; then StopAll of LocalProxy.Run. */
  datatype SessionPc =
    | MReading
    | MGetAll
    | MStop(rest: set<nat>)
    | MRecv(w: nat, rest: set<nat>)
    | MClose(w: nat, rest: set<nat>)
    | MCancel(w: nat, rest: set<nat>)
    | MWait(w: nat, rest: set<nat>)
    | MSockLock
    | MSockPick
    | MSockWait(id: int32, k: nat)
    | MDone

  /** onConnectedHandler around SendStreamStart. */
  datatype AcceptPc =
    | AStart(id: int32)
    | ASendWant(id: int32)
    | ASendHold(id: int32)
    | AStop(id: int32)
    | ASockStart(id: int32)
    | ADone

  // ---------------------------------------------------------------------------
  //  State
  // ---------------------------------------------------------------------------

  /** Workers and sockets are numbered in the order of their creation; worker w was started for
      the stream workerIds[w], and its goroutine is at workerPc[w]. The holder of the worker
      manager's write lock is always a stopper; the read loop holds its read lock exactly while it
      is at RExec. */
  datatype State = State(
    workers: seq<Worker>,
    workerIds: seq<int32>,
    workerPc: seq<WorkerPc>,
    workerMap: map<int32, nat>,
    wmHolder: Option<nat>,
    sockets: seq<Socket>,
    socketIds: seq<int32>,
    socketPc: seq<SocketPc>,
    socketMap: map<int32, nat>,
    smHolder: Option<Tid>,
    mutex: Option<Tid>,
    read: ReadPc,
    pos: nat,
    session: SessionPc,
    stoppers: seq<StopPc>,
    acceptors: seq<AcceptPc>,
    sends: seq<Sent>,
    writes: seq<Write>,
    panicked: bool)

  /** What a session runs on: the messages that arrive, and the mode. */
  datatype Env = Env(input: seq<TunnelMessage>, source: bool)

  /** How the outside answers a step: success or failure, bytes read, a key or index picked. */
  datatype Choice = Choice(ok: bool, data: seq<byte>, id: int32, index: nat)

  const INIT := State([], [], [], map[], None, [], [], [], map[], None, None, RNext, 0, MReading, [], [], [], [], false)

  // ---------------------------------------------------------------------------
  //  What one step does to the shared state
  // ---------------------------------------------------------------------------

  datatype Act =
    | Quiet
    | StartWorker(id: int32)
    | StartSocket(id: int32)
    | Spawn(id: int32)               // workerManager.stop only starts a goroutine
    | TakeMutex
    | DropMutex(sent: Sent)          // after the write
    | LockSm
    | UnlockSm
    | CloseSocket(k: nat)
    | Unregister(id: int32)
    | Hand(k: nat, payload: seq<byte>, ok: bool)
    | Read(k: nat, data: seq<byte>)
    | Enqueue(w: nat, job: Job)
    | Dequeue(w: nat)
    | Complete(w: nat, job: Job)
    | LockWm(i: nat)
    | UnlockWm(id: int32)            // after the delete
    | Drain(w: nat)                  // the receive from chCancel
    | CloseChannel(w: nat)           // close(chCancel)
    | Cancel(w: nat)

  /** One worker after an action that names it. */
  function WorkerAfter(worker: Worker, a: Act): Worker {
    match a
    case Enqueue(_, job) => worker.(chExec := worker.chExec + [job], enqueued := worker.enqueued + [job])
    case Dequeue(_) => if worker.chExec == [] then worker else worker.(chExec := worker.chExec[1..])
    case Complete(_, job) => worker.(done := worker.done + [job])
    case Drain(_) => worker.(token := Taken)
    case CloseChannel(_) => worker.(token := Closed)
    case Cancel(_) => worker.(cancelled := true, cancels := worker.cancels + 1)
    case _ => worker
  }

  predicate OnWorker(a: Act) {
    a.Enqueue? || a.Dequeue? || a.Complete? || a.Drain? || a.CloseChannel? || a.Cancel?
  }

  function WorkersAfter(workers: seq<Worker>, a: Act): seq<Worker> {
    if a.StartWorker? then workers + [FRESH_WORKER]
    else if OnWorker(a) && a.w < |workers| then workers[a.w := WorkerAfter(workers[a.w], a)]
    else workers
  }

  function SocketsAfter(sockets: seq<Socket>, a: Act): seq<Socket> {
    match a
    case StartSocket(_) => sockets + [FRESH_SOCKET]
    case CloseSocket(k) => if k < |sockets| then sockets[k := sockets[k].(closed := true)] else sockets
    case Read(k, d) =>
      if k < |sockets| then sockets[k := sockets[k].(got := sockets[k].got + [d])] else sockets
    case Hand(k, p, _) =>
      if k < |sockets| then sockets[k := sockets[k].(handed := sockets[k].handed + [p])] else sockets
    case _ => sockets
  }

  /** The effect of an action of thread t; closing a closed channel panics. */
  function Apply(s: State, t: Tid, a: Act): State {
    State(
      WorkersAfter(s.workers, a),
      if a.StartWorker? then s.workerIds + [a.id] else s.workerIds,
      if a.StartWorker? then s.workerPc + [WSelect] else s.workerPc,
      if a.StartWorker? then s.workerMap[a.id := |s.workerIds|]
      else if a.UnlockWm? then s.workerMap - {a.id} else s.workerMap,
      if a.LockWm? then Some(a.i) else if a.UnlockWm? then None else s.wmHolder,
      SocketsAfter(s.sockets, a),
      if a.StartSocket? then s.socketIds + [a.id] else s.socketIds,
      if a.StartSocket? then s.socketPc + [SRead] else s.socketPc,
      if a.StartSocket? then s.socketMap[a.id := |s.socketIds|]
      else if a.Unregister? then s.socketMap - {a.id} else s.socketMap,
      if a.LockSm? then Some(t) else if a.UnlockSm? then None else s.smHolder,
      if a.TakeMutex? then Some(t) else if a.DropMutex? then None else s.mutex,
      s.read,
      s.pos,
      s.session,
      if a.Spawn? then s.stoppers + [PWant(a.id)] else s.stoppers,
      s.acceptors,
      if a.DropMutex? then s.sends + [a.sent] else s.sends,
      if a.Hand? then s.writes + [Write(t, a.k, a.payload, a.ok)] else s.writes,
      s.panicked || (a.CloseChannel? && a.w < |s.workers| && s.workers[a.w].token.Closed?))
  }

  // ---------------------------------------------------------------------------
  //  The programs: where a thread can go from its position, and with what action
  // ---------------------------------------------------------------------------

  datatype Move<+P> = Stuck | Go(pc: P, act: Act)

  predicate WmWriteFree(s: State) {
    s.wmHolder.None? && !s.read.RExec?
  }

  predicate Terminated(s: State, k: nat) {
    k < |s.socketPc| && s.socketPc[k].SDone?
  }

  predicate Ended(s: State, w: nat) {
    w < |s.workerPc| && s.workerPc[w].WDone?
  }

  /** A connection that this side has closed takes and gives nothing any more. */
  predicate IsClosed(s: State, k: nat) {
    k < |s.sockets| && s.sockets[k].closed
  }

  /** The switch of invokeEvent. */
  function Dispatch(m: TunnelMessage): ReadPc {
    if m.ignorable then RNext
    else if m.messageType == STREAM_START then RStart(m.streamId)
    else if m.messageType == DATA then RExecLock(m.streamId, DataJob(m.payload))
    else if m.messageType == STREAM_RESET then RExecLock(m.streamId, ResetJob)
    else if m.messageType == SESSION_RESET then RAllLock
    else RNext
  }

  function ReadMove(env: Env, s: State, c: Choice): Move<ReadPc> {
    match s.read
    case RNext => Go(if c.ok && s.pos < |env.input| then Dispatch(env.input[s.pos]) else RDone, Quiet)
    case RStart(id) => if WmWriteFree(s) then Go(RDial(id), StartWorker(id)) else Stuck
    case RDial(id) => Go(if c.ok then RSockStart(id) else RStop(id), Quiet)
    case RSockStart(id) =>
      if s.smHolder.Some? then Stuck
      else if id in s.socketMap then Go(RStop(id), Quiet)
      else Go(RNext, StartSocket(id))
    case RStop(id) => Go(RSendWant(id), Spawn(id))
    case RSendWant(id) => if s.mutex.Some? then Stuck else Go(RSendHold(id), TakeMutex)
    case RSendHold(id) => Go(RNext, DropMutex(Sent(ReadLoop, STREAM_RESET, id, [], c.ok)))
    case RExecLock(id, job) =>
      if s.wmHolder.Some? then Stuck
      else Go(if id in s.workerMap then RExec(s.workerMap[id], job) else RNext, Quiet)
    case RExec(w, job) =>
      if w < |s.workers| && |s.workers[w].chExec| < BUF_SIZE then Go(RNext, Enqueue(w, job)) else Stuck
    case RAllLock => if s.smHolder.Some? then Stuck else Go(RAllPick, LockSm)
    case RAllPick =>
      if s.socketMap == map[] then Go(RNext, UnlockSm)
      else if c.id in s.socketMap then Go(RAllWait(c.id, s.socketMap[c.id]), CloseSocket(s.socketMap[c.id]))
      else Stuck
    case RAllWait(id, k) => if Terminated(s, k) then Go(RAllPick, Unregister(id)) else Stuck
    case RDone => Stuck
  }

  function FirstPc(job: Job): WorkerPc {
    match job
    case DataJob(p) => WLookup(p)
    case ResetJob => WResetLock
  }

  function WorkerMove(s: State, w: nat, c: Choice): Move<WorkerPc>
    requires w < |s.workers| && w < |s.workerPc| && w < |s.workerIds|
  {
    var id := s.workerIds[w];
    match s.workerPc[w]
    case WSelect =>
      if c.ok then if s.workers[w].cancelled then Go(WDone, Quiet) else Stuck
      else if s.workers[w].chExec == [] then Stuck
      else Go(FirstPc(s.workers[w].chExec[0]), Dequeue(w))
    case WLookup(p) =>
      if s.smHolder.Some? then Stuck
      else Go(if id in s.socketMap then WWrite(p, s.socketMap[id]) else WStop(p), Quiet)
    case WWrite(p, k) =>
      var ok := c.ok && !IsClosed(s, k);
      Go(if ok then WFinish(DataJob(p)) else WStop(p), Hand(k, p, ok))
    case WStop(p) => Go(WSendWant(p), Spawn(id))
    case WSendWant(p) => if s.mutex.Some? then Stuck else Go(WSendHold(p), TakeMutex)
    case WSendHold(p) => Go(WFinish(DataJob(p)), DropMutex(Sent(WorkerOf(w), STREAM_RESET, id, [], c.ok)))
    case WResetLock => if s.smHolder.Some? then Stuck else Go(WResetFind, LockSm)
    case WResetFind =>
      if id in s.socketMap then Go(WResetWait(s.socketMap[id]), CloseSocket(s.socketMap[id]))
      else Go(WResetUnlock, Quiet)
    case WResetWait(k) => if Terminated(s, k) then Go(WResetUnlock, Unregister(id)) else Stuck
    case WResetUnlock => Go(WResetStop, UnlockSm)
    case WResetStop => Go(WFinish(ResetJob), Spawn(id))
    case WFinish(job) => Go(WSelect, Complete(w, job))
    case WDone => Stuck
  }

  function SocketMove(s: State, k: nat, c: Choice): Move<SocketPc>
    requires k < |s.sockets| && k < |s.socketPc| && k < |s.socketIds|
  {
    var id := s.socketIds[k];
    match s.socketPc[k]
    case SRead => if c.ok && !s.sockets[k].closed then Go(SSendWant(c.data), Read(k, c.data)) else Go(SErrStop, Quiet)
    case SSendWant(data) => if s.mutex.Some? then Stuck else Go(SSendHold(data), TakeMutex)
    case SSendHold(data) => Go(if c.ok then SRead else SClose, DropMutex(Sent(SocketOf(k), DATA, id, data, c.ok)))
    case SErrStop => Go(SErrWant, Spawn(id))
    case SErrWant => if s.mutex.Some? then Stuck else Go(SErrHold, TakeMutex)
    case SErrHold => Go(SClose, DropMutex(Sent(SocketOf(k), STREAM_RESET, id, [], c.ok)))
    case SClose => Go(SFinish, CloseSocket(k))
    case SFinish => Go(SDone, Quiet)
    case SDone => Stuck
  }

  function StopperMove(s: State, i: nat): Move<StopPc>
    requires i < |s.stoppers|
  {
    match s.stoppers[i]
    case PWant(id) =>
      if !WmWriteFree(s) then Stuck
      else if id in s.workerMap then Go(PRecv(id, s.workerMap[id]), LockWm(i))
      else Go(PDone, Quiet)
    case PRecv(id, w) =>
      if w >= |s.workers| || s.workers[w].token.Taken? then Stuck
      else if s.workers[w].token.Full? then Go(PClose(id, w), Drain(w))
      else Go(PDelete(id, w), Quiet)
    case PClose(id, w) => Go(PCancel(id, w), CloseChannel(w))
    case PCancel(id, w) => Go(PWait(id, w), Cancel(w))
    case PWait(id, w) => if Ended(s, w) then Go(PDelete(id, w), Quiet) else Stuck
    case PDelete(id, w) => Go(PDone, UnlockWm(id))
    case PDone => Stuck
  }

  function SessionMove(s: State, c: Choice): Move<SessionPc> {
    match s.session
    case MReading => if s.read.RDone? then Go(MGetAll, Quiet) else Stuck
    case MGetAll => if s.wmHolder.Some? then Stuck else Go(MStop(s.workerMap.Values), Quiet)
    case MStop(rest) =>
      if rest == {} then Go(MSockLock, Quiet)
      else if c.index in rest then Go(MRecv(c.index, rest - {c.index}), Quiet)
      else Stuck
    case MRecv(w, rest) =>
      if w >= |s.workers| || s.workers[w].token.Taken? then Stuck
      else if s.workers[w].token.Full? then Go(MClose(w, rest), Drain(w))
      else Go(MStop(rest), Quiet)
    case MClose(w, rest) => Go(MCancel(w, rest), CloseChannel(w))
    case MCancel(w, rest) => Go(MWait(w, rest), Cancel(w))
    case MWait(w, rest) => if Ended(s, w) then Go(MStop(rest), Quiet) else Stuck
    case MSockLock => if s.smHolder.Some? then Stuck else Go(MSockPick, LockSm)
    case MSockPick =>
      if s.socketMap == map[] then Go(MDone, UnlockSm)
      else if c.id in s.socketMap then Go(MSockWait(c.id, s.socketMap[c.id]), CloseSocket(s.socketMap[c.id]))
      else Stuck
    case MSockWait(id, k) => if Terminated(s, k) then Go(MSockPick, Unregister(id)) else Stuck
    case MDone => Stuck
  }

  function AcceptorMove(s: State, i: nat, c: Choice): Move<AcceptPc>
    requires i < |s.acceptors|
  {
    match s.acceptors[i]
    case AStart(id) => if WmWriteFree(s) then Go(ASendWant(id), StartWorker(id)) else Stuck
    case ASendWant(id) => if s.mutex.Some? then Stuck else Go(ASendHold(id), TakeMutex)
    case ASendHold(id) =>
      Go(if c.ok then ASockStart(id) else AStop(id), DropMutex(Sent(AcceptorOf(i), STREAM_START, id, [], c.ok)))
    case AStop(id) => Go(ADone, Spawn(id))
    case ASockStart(id) =>
      if s.smHolder.Some? then Stuck
      else Go(ADone, if id in s.socketMap then Quiet else StartSocket(id))
    case ADone => Stuck
  }

  // ---------------------------------------------------------------------------
  //  Steps and runs
  // ---------------------------------------------------------------------------

  function ReadStep(env: Env, s: State, c: Choice): State {
    match ReadMove(env, s, c)
    case Stuck => s
    case Go(pc, a) =>
      Apply(s, ReadLoop, a).(read := pc, pos := if s.read.RNext? && !pc.RDone? then s.pos + 1 else s.pos)
  }

  function SessionStep(s: State, c: Choice): State {
    match SessionMove(s, c)
    case Stuck => s
    case Go(pc, a) => Apply(s, Session, a).(session := pc)
  }

  function WorkerStep(s: State, w: nat, c: Choice): State {
    if w < |s.workers| && w < |s.workerPc| && w < |s.workerIds| then
      (match WorkerMove(s, w, c)
       case Stuck => s
       case Go(pc, a) => Apply(s, WorkerOf(w), a).(workerPc := s.workerPc[w := pc]))
    else s
  }

  function SocketStep(s: State, k: nat, c: Choice): State {
    if k < |s.sockets| && k < |s.socketPc| && k < |s.socketIds| then
      (match SocketMove(s, k, c)
       case Stuck => s
       case Go(pc, a) => Apply(s, SocketOf(k), a).(socketPc := s.socketPc[k := pc]))
    else s
  }

  function StopperStep(s: State, i: nat): State {
    if i < |s.stoppers| then
      (match StopperMove(s, i)
       case Stuck => s
       case Go(pc, a) => Apply(s, StopperOf(i), a).(stoppers := s.stoppers[i := pc]))
    else s
  }

  /** In source mode the next acceptor can appear at any time, with any stream id. */
  function AcceptorStep(env: Env, s: State, i: nat, c: Choice): State {
    if i < |s.acceptors| then
      (match AcceptorMove(s, i, c)
       case Stuck => s
       case Go(pc, a) => Apply(s, AcceptorOf(i), a).(acceptors := s.acceptors[i := pc]))
    else if i == |s.acceptors| && env.source then s.(acceptors := s.acceptors + [AStart(c.id)])
    else s
  }

  /** One turn of one thread; a thread that is stuck lets its turn pass. */
  function Step(env: Env, s: State, t: Tid, c: Choice): State {
    match t
    case ReadLoop => ReadStep(env, s, c)
    case Session => SessionStep(s, c)
    case WorkerOf(w) => WorkerStep(s, w, c)
    case SocketOf(k) => SocketStep(s, k, c)
    case StopperOf(i) => StopperStep(s, i)
    case AcceptorOf(i) => AcceptorStep(env, s, i, c)
  }

  /** A schedule names, turn by turn, who moves and how the outside answers: every run is the run
      of some schedule. */
  function Run(env: Env, s: State, schedule: seq<(Tid, Choice)>): State
    decreases |schedule|
  {
    if schedule == [] then s
    else Run(env, Step(env, s, schedule[0].0, schedule[0].1), schedule[1..])
  }
}
