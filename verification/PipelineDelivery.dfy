/** What reaches a local socket in destination mode: in order, and without a gap, the payloads the
    peer sent on its stream. */
module PipelineDelivery {
  import opened Basics
  import opened Protobuf
  import opened Pipeline
  import opened PipelineInvariants
  import opened PipelineProofs

  // ---------------------------------------------------------------------------
  //  What was sent on a stream
  // ---------------------------------------------------------------------------

  predicate IsStart(m: TunnelMessage, id: int32) {
    !m.ignorable && m.messageType == STREAM_START && m.streamId == id
  }

  predicate IsData(m: TunnelMessage, id: int32) {
    !m.ignorable && m.messageType == DATA && m.streamId == id
  }

  predicate Started(msgs: seq<TunnelMessage>, id: int32) {
    exists i :: 0 <= i < |msgs| && IsStart(msgs[i], id)
  }

  /** The stream id is started at most once in a session. */
  ghost predicate StartedOnce(msgs: seq<TunnelMessage>, id: int32) {
    forall i, j :: 0 <= i < j < |msgs| && IsStart(msgs[i], id) ==> !IsStart(msgs[j], id)
  }

  predicate IsReset(m: TunnelMessage, id: int32) {
    !m.ignorable && m.messageType == STREAM_RESET && m.streamId == id
  }

  /** The payloads of the DATA messages of a stream after its STREAM_START. */
  function Sent(msgs: seq<TunnelMessage>, id: int32): seq<seq<byte>> {
    if msgs == [] then []
    else
      var before := msgs[..|msgs| - 1];
      var m := msgs[|msgs| - 1];
      if IsStart(m, id) then []
      else if IsData(m, id) && Started(before, id) then Sent(before, id) + [m.payload]
      else Sent(before, id)
  }

  /** The jobs that a message makes for the worker of a stream. */
  function JobsOf(m: TunnelMessage, id: int32): seq<Job> {
    if IsData(m, id) then [DataJob(m.payload)] else if IsReset(m, id) then [ResetJob] else []
  }

  /** The jobs of the messages of a stream after its STREAM_START. */
  function JobsSent(msgs: seq<TunnelMessage>, id: int32): seq<Job> {
    if msgs == [] then []
    else
      var before := msgs[..|msgs| - 1];
      var m := msgs[|msgs| - 1];
      if IsStart(m, id) || !Started(before, id) then [] else JobsSent(before, id) + JobsOf(m, id)
  }

  function Payloads(jobs: seq<Job>): seq<seq<byte>> {
    if jobs == [] then []
    else
      var before := Payloads(jobs[..|jobs| - 1]);
      match jobs[|jobs| - 1]
      case DataJob(p) => before + [p]
      case ResetJob => before
  }

  function PayloadOf(job: Job): seq<seq<byte>> {
    match job
    case DataJob(p) => [p]
    case ResetJob => []
  }

  lemma PayloadsOfMore(jobs: seq<Job>, job: Job)
    ensures Payloads(jobs + [job]) == Payloads(jobs) + PayloadOf(job)
  {
    assert (jobs + [job])[..|jobs|] == jobs;
  }

  lemma {:induction false} PayloadsOfPrefix(a: seq<Job>, b: seq<Job>)
    ensures Payloads(a) <= Payloads(a + b)
    decreases |b|
  {
    if b == [] {
      assert a + b == a;
    } else {
      var init := b[..|b| - 1];
      PayloadsOfPrefix(a, init);
      assert a + b == a + init + [b[|b| - 1]];
      PayloadsOfMore(a + init, b[|b| - 1]);
    }
  }

  // ---------------------------------------------------------------------------
  //  The invariant of one stream
  // ---------------------------------------------------------------------------

  /** The stream has been started and has no socket yet. */
  predicate Opening(read: ReadPc, id: int32) {
    read == RStart(id) || read == RDial(id) || read == RSockStart(id)
  }

  /** The job that has been read and not yet enqueued. */
  function InFlight(read: ReadPc, workerIds: seq<int32>, id: int32): seq<Job> {
    match read
    case RExecLock(i, job) => if i == id then [job] else []
    case RExec(w, job) => if w < |workerIds| && workerIds[w] == id then [job] else []
    case _ => []
  }

  ghost predicate Unique(ids: seq<int32>, id: int32) {
    forall x, y :: 0 <= x < |ids| && 0 <= y < |ids| && ids[x] == id && ids[y] == id ==> x == y
  }

  /** Which of the worker and the socket of the stream exist, by how far the read loop is. */
  ghost predicate PhaseOk(heard: seq<TunnelMessage>, read: ReadPc,
                          workerIds: seq<int32>, socketIds: seq<int32>, id: int32) {
    && Unique(workerIds, id) && Unique(socketIds, id)
    && (Started(heard, id) && read != RStart(id) <==> id in workerIds)
    && (!Started(heard, id) || Opening(read, id) ==> id !in socketIds)
    && (!Started(heard, id) || Opening(read, id) ==> JobsSent(heard, id) == [])
    && (Opening(read, id) ==> Started(heard, id))
  }

  predicate Given(sent: seq<Job>, enqueued: seq<Job>, registered: bool, inFlight: seq<Job>) {
    if registered then enqueued + inFlight == sent else enqueued <= sent
  }

  /** While the worker is registered it has been given everything that was sent, but for what the
      read loop has in its hands; after that, a prefix. */
  ghost predicate EnqueuedOk(sent: seq<Job>, read: ReadPc, workers: seq<Worker>, workerIds: seq<int32>,
                             workerMap: map<int32, nat>, id: int32) {
    forall w :: 0 <= w < |workers| && w < |workerIds| && workerIds[w] == id ==>
      Given(sent, workers[w].enqueued, id in workerMap, InFlight(read, workerIds, id))
  }

  /** The payload of the running job, once it has been handed to the socket or has missed it. */
  function Past(pc: WorkerPc): seq<seq<byte>> {
    match pc
    case WStop(p) => [p]
    case WSendWant(p) => [p]
    case WSendHold(p) => [p]
    case WFinish(job) => PayloadOf(job)
    case _ => []
  }

  /** What a worker has come past: the payloads of the jobs it has done, and that of the running one. */
  function ComePast(done: seq<Job>, pc: WorkerPc): seq<seq<byte>> {
    if Past(pc) == [] then Payloads(done) else Payloads(done) + Past(pc)
  }

  /** While the socket is registered it has been handed everything the worker has come past. */
  predicate HandedAt(worker: Worker, pc: WorkerPc, handed: seq<seq<byte>>, registered: bool) {
    if registered || pc.WWrite? then handed == ComePast(worker.done, pc) else handed <= ComePast(worker.done, pc)
  }

  ghost predicate HandedOk(workers: seq<Worker>, workerIds: seq<int32>, workerPc: seq<WorkerPc>,
                           sockets: seq<Socket>, socketIds: seq<int32>, socketMap: map<int32, nat>, id: int32) {
    forall w, k | 0 <= w < |workers| && w < |workerIds| && w < |workerPc| && workerIds[w] == id
               && 0 <= k < |sockets| && k < |socketIds| && socketIds[k] == id ::
      HandedAt(workers[w], workerPc[w], sockets[k].handed, Registered(k, socketIds, socketMap))
  }

  ghost predicate Stream(env: Env, s: State, id: int32) {
    && !env.source && s.acceptors == []
    && s.pos <= |env.input|
    && PhaseOk(env.input[..s.pos], s.read, s.workerIds, s.socketIds, id)
    && EnqueuedOk(JobsSent(env.input[..s.pos], id), s.read, s.workers, s.workerIds, s.workerMap, id)
    && HandedOk(s.workers, s.workerIds, s.workerPc, s.sockets, s.socketIds, s.socketMap, id)
  }

  lemma StreamInit(env: Env, id: int32)
    requires !env.source
    ensures Stream(env, INIT, id)
  {
  }

  // ---------------------------------------------------------------------------
  //  Steps
  // ---------------------------------------------------------------------------

  lemma StartedOfMore(msgs: seq<TunnelMessage>, m: TunnelMessage, id: int32)
    ensures Started(msgs + [m], id) <==> Started(msgs, id) || IsStart(m, id)
  {
    var all := msgs + [m];
    if Started(msgs, id) {
      var i :| 0 <= i < |msgs| && IsStart(msgs[i], id);
      assert IsStart(all[i], id);
    }
    if IsStart(m, id) {
      assert IsStart(all[|msgs|], id);
    }
  }

  lemma JobsSentOfMore(msgs: seq<TunnelMessage>, m: TunnelMessage, id: int32)
    ensures JobsSent(msgs + [m], id)
         == if IsStart(m, id) || !Started(msgs, id) then [] else JobsSent(msgs, id) + JobsOf(m, id)
  {
    assert (msgs + [m])[..|msgs|] == msgs;
  }

  lemma HearKeepsPhase(heard: seq<TunnelMessage>, m: TunnelMessage,
                       workerIds: seq<int32>, socketIds: seq<int32>, id: int32)
    requires PhaseOk(heard, RNext, workerIds, socketIds, id)
    requires IsStart(m, id) ==> !Started(heard, id)
    ensures PhaseOk(heard + [m], Dispatch(m), workerIds, socketIds, id)
  {
    StartedOfMore(heard, m, id);
    JobsSentOfMore(heard, m, id);
  }

  /** What is heard on the stream is in flight, if there is a worker for it. */
  lemma HearIsInFlight(m: TunnelMessage, workerIds: seq<int32>, id: int32)
    ensures InFlight(Dispatch(m), workerIds, id) == JobsOf(m, id)
  {
  }

  lemma HearKeepsEnqueued(heard: seq<TunnelMessage>, m: TunnelMessage, workers: seq<Worker>, workerIds: seq<int32>,
                          workerMap: map<int32, nat>, id: int32)
    requires EnqueuedOk(JobsSent(heard, id), RNext, workers, workerIds, workerMap, id)
    requires Started(heard, id) <==> id in workerIds
    requires IsStart(m, id) ==> !Started(heard, id)
    ensures EnqueuedOk(JobsSent(heard + [m], id), Dispatch(m), workers, workerIds, workerMap, id)
  {
    JobsSentOfMore(heard, m, id);
    HearIsInFlight(m, workerIds, id);
    forall w | 0 <= w < |workers| && w < |workerIds| && workerIds[w] == id
      ensures Given(JobsSent(heard + [m], id), workers[w].enqueued, id in workerMap, JobsOf(m, id))
    {
      assert Given(JobsSent(heard, id), workers[w].enqueued, id in workerMap, []);
      assert workers[w].enqueued + [] == workers[w].enqueued;
    }
  }

  /** The read loop takes the next message off the stream. */
  lemma HearKeepsStream(env: Env, s: State, id: int32)
    requires Stream(env, s, id) && StartedOnce(env.input, id)
    requires s.read.RNext? && s.pos < |env.input|
    ensures Stream(env, s.(read := Dispatch(env.input[s.pos]), pos := s.pos + 1), id)
  {
    var heard, m := env.input[..s.pos], env.input[s.pos];
    assert env.input[..s.pos + 1] == heard + [m];
    assert IsStart(m, id) ==> !Started(heard, id);
    HearKeepsPhase(heard, m, s.workerIds, s.socketIds, id);
    HearKeepsEnqueued(heard, m, s.workers, s.workerIds, s.workerMap, id);
  }

  lemma RanAndRunning(done: seq<Job>, job: Job, queue: seq<Job>)
    ensures Payloads(done) <= Payloads(done + [job] + queue)
    ensures Payloads(done) + PayloadOf(job) <= Payloads(done + [job] + queue)
  {
    PayloadsOfMore(done, job);
    PayloadsOfPrefix(done + [job], queue);
  }

  lemma RanOfEnqueued(worker: Worker, pc: WorkerPc)
    requires LedgerOf(worker, pc)
    ensures ComePast(worker.done, pc) <= Payloads(worker.enqueued)
  {
    if pc.WSelect? || pc.WDone? {
      PayloadsOfPrefix(worker.done, worker.chExec);
      assert worker.done + [] + worker.chExec == worker.done + worker.chExec;
    } else {
      var job := Running(pc)[0];
      RanAndRunning(worker.done, job, worker.chExec);
      assert Past(pc) == [] || Past(pc) == PayloadOf(job);
    }
  }

  ghost predicate EnqueuedAt(sent: seq<Job>, s: State, id: int32) {
    EnqueuedOk(sent, s.read, s.workers, s.workerIds, s.workerMap, id)
  }

  ghost predicate HandedIn(s: State, id: int32) {
    HandedOk(s.workers, s.workerIds, s.workerPc, s.sockets, s.socketIds, s.socketMap, id)
  }

  // What an action alone does

  lemma ApplyKeepsEnqueued(sent: seq<Job>, s: State, t: Tid, a: Act, id: int32)
    requires MapsOk(s) && ReadRefs(s.read, s.workerIds, s.workerMap) && EnqueuedAt(sent, s, id)
    requires a != StartWorker(id) && !a.Enqueue?
    ensures EnqueuedAt(sent, Apply(s, t, a), id)
  {
  }

  lemma ApplyKeepsSocket(s: State, t: Tid, a: Act, id: int32, k: nat)
    requires MapsOk(s) && k < |Apply(s, t, a).sockets| && Apply(s, t, a).socketIds[k] == id && a != StartSocket(id)
    requires a.Hand? ==> a.k < |s.socketIds| && s.socketIds[a.k] != id
    ensures var n := Apply(s, t, a);
            && k < |s.sockets| && s.socketIds[k] == id && n.sockets[k].handed == s.sockets[k].handed
            && (Registered(k, n.socketIds, n.socketMap) ==> Registered(k, s.socketIds, s.socketMap))
  {
  }

  lemma ApplyKeepsWorker(s: State, t: Tid, a: Act, id: int32, w: nat)
    requires MapsOk(s) && w < |Apply(s, t, a).workers| && Apply(s, t, a).workerIds[w] == id
    requires !a.Complete? && a != StartWorker(id)
    ensures var n := Apply(s, t, a);
            && w < |s.workers| && s.workerIds[w] == id
            && n.workers[w].done == s.workers[w].done && n.workerPc[w] == s.workerPc[w]
  {
  }

  lemma HandedStays(worker: Worker, worker': Worker, pc: WorkerPc, handed: seq<seq<byte>>,
                    registered: bool, registered': bool)
    requires HandedAt(worker, pc, handed, registered) && worker'.done == worker.done && (registered' ==> registered)
    ensures HandedAt(worker', pc, handed, registered')
  {
  }

  lemma ApplyKeepsHanded(s: State, t: Tid, a: Act, id: int32)
    requires MapsOk(s) && HandedIn(s, id)
    requires !a.Complete? && a != StartSocket(id) && (a == StartWorker(id) ==> id !in s.socketIds)
    requires a.Hand? ==> a.k < |s.socketIds| && s.socketIds[a.k] != id
    ensures HandedIn(Apply(s, t, a), id)
  {
    var n := Apply(s, t, a);
    forall w, k | 0 <= w < |n.workers| && n.workerIds[w] == id && 0 <= k < |n.sockets| && n.socketIds[k] == id
      ensures HandedAt(n.workers[w], n.workerPc[w], n.sockets[k].handed, Registered(k, n.socketIds, n.socketMap))
    {
      ApplyKeepsSocket(s, t, a, id, k);
      ApplyKeepsWorker(s, t, a, id, w);
      HandedStays(s.workers[w], n.workers[w], s.workerPc[w], s.sockets[k].handed,
                  Registered(k, s.socketIds, s.socketMap), Registered(k, n.socketIds, n.socketMap));
    }
  }

  // The read loop

  predicate Hears(env: Env, s: State, c: Choice) {
    s.read.RNext? && c.ok && s.pos < |env.input|
  }

  /** How the read loop takes a stream through its start. */
  predicate PhaseEdge(read: ReadPc, next: ReadPc, workerIds: seq<int32>, workerIds': seq<int32>,
                      socketIds: seq<int32>, socketIds': seq<int32>) {
    match read
    case RStart(x) => next == RDial(x) && workerIds' == workerIds + [x] && socketIds' == socketIds
    case RDial(x) => (next == RSockStart(x) || next == RStop(x)) && workerIds' == workerIds && socketIds' == socketIds
    case RSockStart(x) =>
      && workerIds' == workerIds
      && if next == RStop(x) then socketIds' == socketIds else next.RNext? && socketIds' == socketIds + [x]
    case _ => workerIds' == workerIds && socketIds' == socketIds && !next.RStart? && !next.RDial? && !next.RSockStart?
  }

  lemma ReadMovesAlong(env: Env, s: State, c: Choice)
    requires !Hears(env, s, c) && ReadMove(env, s, c).Go?
    ensures var n := ReadStep(env, s, c); PhaseEdge(s.read, n.read, s.workerIds, n.workerIds, s.socketIds, n.socketIds)
  {
  }

  lemma PhaseAcross(heard: seq<TunnelMessage>, read: ReadPc, next: ReadPc,
                    workerIds: seq<int32>, workerIds': seq<int32>,
                    socketIds: seq<int32>, socketIds': seq<int32>, id: int32)
    requires PhaseOk(heard, read, workerIds, socketIds, id)
    requires PhaseEdge(read, next, workerIds, workerIds', socketIds, socketIds')
    ensures PhaseOk(heard, next, workerIds', socketIds', id)
  {
  }

  lemma ReadKeepsPhase(env: Env, s: State, c: Choice, heard: seq<TunnelMessage>, id: int32)
    requires PhaseOk(heard, s.read, s.workerIds, s.socketIds, id) && !Hears(env, s, c)
    ensures var n := ReadStep(env, s, c); PhaseOk(heard, n.read, n.workerIds, n.socketIds, id)
  {
    if ReadMove(env, s, c).Go? {
      var n := ReadStep(env, s, c);
      ReadMovesAlong(env, s, c);
      PhaseAcross(heard, s.read, n.read, s.workerIds, n.workerIds, s.socketIds, n.socketIds, id);
    }
  }

  lemma EnqueueKeepsEnqueued(s: State, sent: seq<Job>, id: int32)
    requires MapsOk(s) && ReadRefs(s.read, s.workerIds, s.workerMap) && EnqueuedAt(sent, s, id)
    requires Unique(s.workerIds, id) && s.read.RExec?
    ensures EnqueuedAt(sent, Apply(s, ReadLoop, Enqueue(s.read.w, s.read.job)).(read := RNext), id)
  {
    var w, job := s.read.w, s.read.job;
    var n := Apply(s, ReadLoop, Enqueue(w, job)).(read := RNext);
    assert n.workers == s.workers[w := WorkerAfter(s.workers[w], Enqueue(w, job))];
    forall v | 0 <= v < |n.workers| && n.workerIds[v] == id
      ensures Given(sent, n.workers[v].enqueued, id in n.workerMap, InFlight(n.read, n.workerIds, id))
    {
      assert Given(sent, s.workers[v].enqueued, id in s.workerMap, InFlight(s.read, s.workerIds, id));
      assert n.workers[v].enqueued + [] == n.workers[v].enqueued;
    }
  }

  lemma StartKeepsEnqueued(s: State, sent: seq<Job>, x: int32, id: int32)
    requires MapsOk(s) && EnqueuedAt(sent, s, id) && s.read == RStart(x)
    requires x == id ==> id !in s.workerIds && sent == []
    ensures EnqueuedAt(sent, Apply(s, ReadLoop, StartWorker(x)).(read := RDial(x)), id)
  {
    var n := Apply(s, ReadLoop, StartWorker(x)).(read := RDial(x));
    forall v | 0 <= v < |n.workers| && n.workerIds[v] == id
      ensures Given(sent, n.workers[v].enqueued, id in n.workerMap, InFlight(n.read, n.workerIds, id))
    {
      if v < |s.workers| {
        assert Given(sent, s.workers[v].enqueued, id in s.workerMap, InFlight(s.read, s.workerIds, id));
      }
    }
  }

  /** A step of the read loop that neither hears, nor starts, nor enqueues. */
  lemma ReadLeavesWorkers(env: Env, s: State, c: Choice, id: int32)
    requires !Hears(env, s, c) && !s.read.RExec? && !s.read.RStart? && ReadMove(env, s, c).Go?
    requires Registry(s.workerIds, s.workerMap)
    ensures var n := ReadStep(env, s, c);
            && n.workers == s.workers && n.workerIds == s.workerIds && n.workerMap == s.workerMap
            && (id in s.workerMap ==> InFlight(n.read, n.workerIds, id) == InFlight(s.read, s.workerIds, id))
  {
  }

  lemma ReadKeepsEnqueued(env: Env, s: State, c: Choice, sent: seq<Job>, id: int32)
    requires MapsOk(s) && ReadRefs(s.read, s.workerIds, s.workerMap) && EnqueuedAt(sent, s, id)
    requires Unique(s.workerIds, id)
    requires s.read == RStart(id) ==> id !in s.workerIds && sent == []
    requires !Hears(env, s, c)
    ensures EnqueuedAt(sent, ReadStep(env, s, c), id)
  {
    if ReadMove(env, s, c).Go? {
      if s.read.RExec? {
        EnqueueKeepsEnqueued(s, sent, id);
      } else if s.read.RStart? {
        StartKeepsEnqueued(s, sent, s.read.id, id);
      } else {
        ReadLeavesWorkers(env, s, c, id);
      }
    }
  }

  /** Nothing of a stream is run, let alone handed over, before anything is sent on it. */
  lemma NothingRan(s: State, w: nat, id: int32)
    requires MapsOk(s) && LedgerOk(s) && EnqueuedAt([], s, id)
    requires w < |s.workers| && s.workerIds[w] == id
    ensures ComePast(s.workers[w].done, s.workerPc[w]) == []
  {
    assert LedgerOf(s.workers[w], s.workerPc[w]);
    RanOfEnqueued(s.workers[w], s.workerPc[w]);
  }

  lemma OpenKeepsHanded(s: State, id: int32)
    requires MapsOk(s) && LedgerOk(s) && EnqueuedAt([], s, id)
    requires id !in s.socketIds
    ensures HandedIn(Apply(s, ReadLoop, StartSocket(id)), id)
  {
    var n := Apply(s, ReadLoop, StartSocket(id));
    assert n.workers == s.workers && n.workerIds == s.workerIds && n.workerPc == s.workerPc;
    forall w, k | 0 <= w < |n.workers| && n.workerIds[w] == id && 0 <= k < |n.sockets| && n.socketIds[k] == id
      ensures HandedAt(n.workers[w], n.workerPc[w], n.sockets[k].handed, Registered(k, n.socketIds, n.socketMap))
    {
      NothingRan(s, w, id);
      assert k == |s.sockets|;
      assert n.sockets[k] == FRESH_SOCKET;
    }
  }

  lemma ReadKeepsHanded(env: Env, s: State, c: Choice, id: int32)
    requires MapsOk(s) && LedgerOk(s) && HandedIn(s, id)
    requires Opening(s.read, id) ==> id !in s.socketIds && EnqueuedAt([], s, id)
    requires !Hears(env, s, c)
    ensures HandedIn(ReadStep(env, s, c), id)
  {
    if ReadMove(env, s, c).Go? {
      var a := ReadMove(env, s, c).act;
      if a == StartSocket(id) {
        OpenKeepsHanded(s, id);
      } else {
        ApplyKeepsHanded(s, ReadLoop, a, id);
      }
    }
  }

  lemma ReadLeavesPlace(env: Env, s: State, c: Choice)
    requires !Hears(env, s, c)
    ensures ReadStep(env, s, c).pos == s.pos && ReadStep(env, s, c).acceptors == s.acceptors
  {
  }

  lemma HearIsTheStep(env: Env, s: State, c: Choice)
    requires Hears(env, s, c)
    ensures ReadStep(env, s, c) == s.(read := Dispatch(env.input[s.pos]), pos := s.pos + 1)
  {
  }

  /** The read loop goes on with what it has heard. */
  lemma ReadOnKeepsStream(env: Env, s: State, c: Choice, id: int32)
    requires MapsOk(s) && LedgerOk(s) && ReadRefs(s.read, s.workerIds, s.workerMap)
    requires Stream(env, s, id) && !Hears(env, s, c)
    ensures Stream(env, ReadStep(env, s, c), id)
  {
    var heard := env.input[..s.pos];
    ReadLeavesPlace(env, s, c);
    ReadKeepsPhase(env, s, c, heard, id);
    ReadKeepsEnqueued(env, s, c, JobsSent(heard, id), id);
    ReadKeepsHanded(env, s, c, id);
  }

  lemma ReadKeepsStream(env: Env, s: State, c: Choice, id: int32)
    requires MapsOk(s) && LedgerOk(s) && RefsOk(s) && Stream(env, s, id) && StartedOnce(env.input, id)
    ensures Stream(env, ReadStep(env, s, c), id)
  {
    if Hears(env, s, c) {
      HearIsTheStep(env, s, c);
      HearKeepsStream(env, s, id);
    } else {
      ReadOnKeepsStream(env, s, c, id);
    }
  }

  // Workers

  /** What matters to the socket in a move of its worker. */
  predicate Passes(pc: WorkerPc, next: WorkerPc, a: Act, k: nat, registered: bool) {
    match pc
    case WLookup(p) => a.Quiet? && if registered then next == WWrite(p, k) else next == WStop(p)
    case WWrite(p, _) => a.Hand? && a.k == k && a.payload == p && Past(next) == [p] && !next.WWrite?
    case WFinish(job) => a.Complete? && a.job == job && next.WSelect?
    case _ => !a.Hand? && !a.Complete? && Past(next) == Past(pc) && !next.WWrite?
  }

  lemma WorkerPasses(s: State, w: nat, c: Choice, k: nat)
    requires w < |s.workers| && w < |s.workerPc| && w < |s.workerIds| && k < |s.socketIds|
    requires s.socketIds[k] == s.workerIds[w] && Unique(s.socketIds, s.workerIds[w])
    requires Registry(s.socketIds, s.socketMap)
    requires s.workerPc[w].WWrite? ==> s.workerPc[w].k < |s.socketIds| && s.socketIds[s.workerPc[w].k] == s.workerIds[w]
    requires WorkerMove(s, w, c).Go?
    ensures var Go(pc, a) := WorkerMove(s, w, c);
            Passes(s.workerPc[w], pc, a, k, Registered(k, s.socketIds, s.socketMap))
  {
  }

  lemma LookupPasses(worker: Worker, p: seq<byte>, k: nat, handed: seq<seq<byte>>, registered: bool)
    requires HandedAt(worker, WLookup(p), handed, registered)
    ensures HandedAt(worker, if registered then WWrite(p, k) else WStop(p), handed, registered)
  {
  }

  lemma WritePasses(worker: Worker, p: seq<byte>, k: nat, next: WorkerPc, handed: seq<seq<byte>>, registered: bool)
    requires HandedAt(worker, WWrite(p, k), handed, registered) && Past(next) == [p] && !next.WWrite?
    ensures HandedAt(worker, next, handed + [p], registered)
  {
  }

  lemma FinishPasses(worker: Worker, w: nat, job: Job, handed: seq<seq<byte>>, registered: bool)
    requires HandedAt(worker, WFinish(job), handed, registered)
    ensures HandedAt(WorkerAfter(worker, Complete(w, job)), WSelect, handed, registered)
  {
    DoneIsPast(worker.done, job);
  }

  lemma DoneIsPast(done: seq<Job>, job: Job)
    ensures Payloads(done + [job]) == ComePast(done, WFinish(job))
  {
    assert (done + [job])[..|done|] == done;
  }

  lemma NothingPasses(worker: Worker, worker': Worker, pc: WorkerPc, next: WorkerPc, handed: seq<seq<byte>>,
                      registered: bool)
    requires HandedAt(worker, pc, handed, registered) && worker'.done == worker.done
    requires Past(next) == Past(pc) && !next.WWrite?
    ensures HandedAt(worker', next, handed, registered)
  {
  }

  lemma PassingKeepsHanded(worker: Worker, pc: WorkerPc, next: WorkerPc, a: Act, k: nat,
                           handed: seq<seq<byte>>, registered: bool)
    requires HandedAt(worker, pc, handed, registered) && Passes(pc, next, a, k, registered)
    ensures HandedAt(WorkerAfter(worker, a), next, if a.Hand? then handed + [a.payload] else handed, registered)
  {
    match pc
    case WLookup(p) => LookupPasses(worker, p, k, handed, registered);
    case WWrite(p, at) => WritePasses(worker, p, at, next, handed, registered);
    case WFinish(job) => FinishPasses(worker, a.w, job, handed, registered);
    case _ => NothingPasses(worker, WorkerAfter(worker, a), pc, next, handed, registered);
  }

  /** The worker of the stream: what it has come past is what its socket has been handed. */
  lemma WorkerMoveKeepsHanded(s: State, w: nat, c: Choice, k: nat)
    requires w < |s.workers| && w < |s.workerPc| && w < |s.workerIds| && k < |s.socketIds|
    requires k < |s.sockets| && s.socketIds[k] == s.workerIds[w] && Unique(s.socketIds, s.workerIds[w])
    requires Registry(s.socketIds, s.socketMap)
    requires s.workerPc[w].WWrite? ==> s.workerPc[w].k < |s.socketIds| && s.socketIds[s.workerPc[w].k] == s.workerIds[w]
    requires HandedAt(s.workers[w], s.workerPc[w], s.sockets[k].handed, Registered(k, s.socketIds, s.socketMap))
    requires WorkerMove(s, w, c).Go?
    ensures var Go(pc, a) := WorkerMove(s, w, c);
            && (a.Hand? ==> a.k == k)
            && HandedAt(WorkerAfter(s.workers[w], a), pc,
                        if a.Hand? then s.sockets[k].handed + [a.payload] else s.sockets[k].handed,
                        Registered(k, s.socketIds, s.socketMap))
  {
    WorkerPasses(s, w, c, k);
    PassingKeepsHanded(s.workers[w], s.workerPc[w], WorkerMove(s, w, c).pc, WorkerMove(s, w, c).act, k,
                       s.sockets[k].handed, Registered(k, s.socketIds, s.socketMap));
  }

  /** The effect of a step of the worker on itself, its position and the sockets. */
  lemma WorkerEffect(s: State, w: nat, c: Choice)
    requires MapsOk(s) && w < |s.workers| && WorkerMove(s, w, c).Go?
    ensures var Go(pc, a) := WorkerMove(s, w, c);
            var n := WorkerStep(s, w, c);
            && n.workers == s.workers[w := WorkerAfter(s.workers[w], a)] && n.workerPc == s.workerPc[w := pc]
            && n.workerIds == s.workerIds && n.socketIds == s.socketIds
            && n.sockets == SocketsAfter(s.sockets, a) && !a.StartSocket?
            && (a.Unregister? || n.socketMap == s.socketMap)
            && (a.Unregister? ==> s.workerPc[w].WResetWait? && pc.WResetUnlock?)
  {
    assert s.workers[w := s.workers[w]] == s.workers;
  }

  lemma OwnWorkerKeepsHandedAt(s: State, w: nat, c: Choice, k: nat)
    requires MapsOk(s) && WriteOk(s) && w < |s.workers| && k < |s.sockets| && WorkerMove(s, w, c).Go?
    requires s.socketIds[k] == s.workerIds[w] && Unique(s.socketIds, s.workerIds[w])
    requires HandedAt(s.workers[w], s.workerPc[w], s.sockets[k].handed, Registered(k, s.socketIds, s.socketMap))
    ensures var n := WorkerStep(s, w, c);
            && w < |n.workers| && w < |n.workerPc| && k < |n.sockets|
            && HandedAt(n.workers[w], n.workerPc[w], n.sockets[k].handed, Registered(k, n.socketIds, n.socketMap))
  {
    WorkerEffect(s, w, c);
    WorkerMoveKeepsHanded(s, w, c, k);
  }

  lemma OwnWorkerKeepsHanded(s: State, w: nat, c: Choice)
    requires MapsOk(s) && WriteOk(s) && w < |s.workers| && WorkerMove(s, w, c).Go?
    requires var id := s.workerIds[w]; HandedIn(s, id) && Unique(s.workerIds, id) && Unique(s.socketIds, id)
    ensures HandedIn(WorkerStep(s, w, c), s.workerIds[w])
  {
    var id, n := s.workerIds[w], WorkerStep(s, w, c);
    WorkerEffect(s, w, c);
    forall v, k | 0 <= v < |n.workers| && n.workerIds[v] == id && 0 <= k < |n.sockets| && n.socketIds[k] == id
      ensures HandedAt(n.workers[v], n.workerPc[v], n.sockets[k].handed, Registered(k, n.socketIds, n.socketMap))
    {
      assert v == w && k < |s.sockets|;
      OwnWorkerKeepsHandedAt(s, w, c, k);
    }
  }

  lemma WorkerKeepsHanded(s: State, w: nat, c: Choice, id: int32)
    requires MapsOk(s) && WriteOk(s) && HandedIn(s, id) && Unique(s.workerIds, id) && Unique(s.socketIds, id)
    ensures HandedIn(WorkerStep(s, w, c), id)
  {
    if w < |s.workers| && WorkerMove(s, w, c).Go? {
      if s.workerIds[w] != id {
        OtherWorkerKeepsHanded(s, w, c, id);
      } else {
        OwnWorkerKeepsHanded(s, w, c);
      }
    }
  }

  /** The worker of another stream. */
  lemma OtherWorkerLeavesSocket(s: State, w: nat, c: Choice, k: nat)
    requires MapsOk(s) && WriteOk(s) && w < |s.workers| && WorkerMove(s, w, c).Go?
    requires k < |s.sockets| && s.socketIds[k] != s.workerIds[w]
    ensures var n := WorkerStep(s, w, c);
            && k < |n.sockets| && n.sockets[k].handed == s.sockets[k].handed
            && (Registered(k, n.socketIds, n.socketMap) <==> Registered(k, s.socketIds, s.socketMap))
  {
    WorkerEffect(s, w, c);
  }

  lemma OtherWorkerKeepsHanded(s: State, w: nat, c: Choice, id: int32)
    requires MapsOk(s) && WriteOk(s) && HandedIn(s, id)
    requires w < |s.workers| && s.workerIds[w] != id && WorkerMove(s, w, c).Go?
    ensures HandedIn(WorkerStep(s, w, c), id)
  {
    var n := WorkerStep(s, w, c);
    WorkerEffect(s, w, c);
    forall v, k | 0 <= v < |n.workers| && n.workerIds[v] == id && 0 <= k < |n.sockets| && n.socketIds[k] == id
      ensures HandedAt(n.workers[v], n.workerPc[v], n.sockets[k].handed, Registered(k, n.socketIds, n.socketMap))
    {
      assert HandedAt(s.workers[v], s.workerPc[v], s.sockets[k].handed, Registered(k, s.socketIds, s.socketMap));
      OtherWorkerLeavesSocket(s, w, c, k);
    }
  }

  lemma WorkerKeepsEnqueued(sent: seq<Job>, s: State, w: nat, c: Choice, id: int32)
    requires MapsOk(s) && RefsOk(s) && EnqueuedAt(sent, s, id)
    ensures EnqueuedAt(sent, WorkerStep(s, w, c), id)
  {
    if w < |s.workers| && WorkerMove(s, w, c).Go? {
      ApplyKeepsEnqueued(sent, s, WorkerOf(w), WorkerMove(s, w, c).act, id);
    }
  }

  lemma WorkerLeavesPhase(s: State, w: nat, c: Choice)
    ensures var n := WorkerStep(s, w, c);
            && n.pos == s.pos && n.read == s.read && n.acceptors == s.acceptors
            && n.workerIds == s.workerIds && n.socketIds == s.socketIds
  {
  }

  lemma WorkerKeepsStream(env: Env, s: State, w: nat, c: Choice, id: int32)
    requires MapsOk(s) && RefsOk(s) && WriteOk(s) && Stream(env, s, id)
    ensures Stream(env, WorkerStep(s, w, c), id)
  {
    WorkerLeavesPhase(s, w, c);
    WorkerKeepsHanded(s, w, c, id);
    WorkerKeepsEnqueued(JobsSent(env.input[..s.pos], id), s, w, c, id);
  }

  // Everybody else

  lemma ApplyKeepsStream(env: Env, s: State, t: Tid, a: Act, id: int32)
    requires MapsOk(s) && RefsOk(s) && Stream(env, s, id)
    requires !a.StartWorker? && !a.StartSocket? && !a.Enqueue? && !a.Complete? && !a.Hand?
    ensures Stream(env, Apply(s, t, a), id)
  {
    ApplyKeepsEnqueued(JobsSent(env.input[..s.pos], id), s, t, a, id);
    ApplyKeepsHanded(s, t, a, id);
  }

  /** What the read loop and the workers do not touch. */
  lemma StreamOfSame(env: Env, s: State, n: State, id: int32)
    requires Stream(env, s, id)
    requires n.acceptors == s.acceptors && n.pos == s.pos && n.read == s.read
    requires n.workers == s.workers && n.workerIds == s.workerIds
    requires n.workerPc == s.workerPc && n.workerMap == s.workerMap
    requires n.sockets == s.sockets && n.socketIds == s.socketIds && n.socketMap == s.socketMap
    ensures Stream(env, n, id)
  {
  }

  lemma SessionKeepsStream(env: Env, s: State, c: Choice, id: int32)
    requires MapsOk(s) && RefsOk(s) && Stream(env, s, id)
    ensures Stream(env, SessionStep(s, c), id)
  {
    if SessionMove(s, c).Go? {
      var a := SessionMove(s, c).act;
      ApplyKeepsStream(env, s, Session, a, id);
      StreamOfSame(env, Apply(s, Session, a), SessionStep(s, c), id);
    }
  }

  lemma SocketKeepsStream(env: Env, s: State, k: nat, c: Choice, id: int32)
    requires MapsOk(s) && RefsOk(s) && Stream(env, s, id)
    ensures Stream(env, SocketStep(s, k, c), id)
  {
    if k < |s.sockets| && SocketMove(s, k, c).Go? {
      var a := SocketMove(s, k, c).act;
      ApplyKeepsStream(env, s, SocketOf(k), a, id);
      StreamOfSame(env, Apply(s, SocketOf(k), a), SocketStep(s, k, c), id);
    }
  }

  lemma StopperKeepsStream(env: Env, s: State, i: nat, id: int32)
    requires MapsOk(s) && RefsOk(s) && Stream(env, s, id)
    ensures Stream(env, StopperStep(s, i), id)
  {
    if i < |s.stoppers| && StopperMove(s, i).Go? {
      var a := StopperMove(s, i).act;
      ApplyKeepsStream(env, s, StopperOf(i), a, id);
      StreamOfSame(env, Apply(s, StopperOf(i), a), StopperStep(s, i), id);
    }
  }

  lemma StepKeepsStream(env: Env, s: State, t: Tid, c: Choice, id: int32)
    requires MapsOk(s) && LedgerOk(s) && RefsOk(s) && WriteOk(s) && Stream(env, s, id) && StartedOnce(env.input, id)
    ensures Stream(env, Step(env, s, t, c), id)
  {
    match t
    case ReadLoop => ReadKeepsStream(env, s, c, id);
    case Session => SessionKeepsStream(env, s, c, id);
    case WorkerOf(w) => WorkerKeepsStream(env, s, w, c, id);
    case SocketOf(k) => SocketKeepsStream(env, s, k, c, id);
    case StopperOf(i) => StopperKeepsStream(env, s, i, id);
    case AcceptorOf(i) =>
  }

  lemma {:induction false} RunKeepsStream(env: Env, s: State, schedule: seq<(Tid, Choice)>, id: int32)
    requires Inv(s) && Stream(env, s, id) && StartedOnce(env.input, id)
    ensures Stream(env, Run(env, s, schedule), id)
    decreases |schedule|
  {
    if schedule != [] {
      StepKeepsInv(env, s, schedule[0].0, schedule[0].1);
      StepKeepsStream(env, s, schedule[0].0, schedule[0].1, id);
      RunKeepsStream(env, Step(env, s, schedule[0].0, schedule[0].1), schedule[1..], id);
    }
  }

  // ---------------------------------------------------------------------------
  //  What was sent is only added to
  // ---------------------------------------------------------------------------

  lemma StartedOnceBefore(a: seq<TunnelMessage>, b: seq<TunnelMessage>, id: int32)
    requires StartedOnce(a + b, id)
    ensures StartedOnce(a, id)
  {
    forall i, j | 0 <= i < j < |a| && IsStart(a[i], id) ensures !IsStart(a[j], id) {
      assert (a + b)[i] == a[i] && (a + b)[j] == a[j];
    }
  }

  lemma FirstStart(msgs: seq<TunnelMessage>, m: TunnelMessage, id: int32)
    requires StartedOnce(msgs + [m], id) && IsStart(m, id)
    ensures !Started(msgs, id)
  {
    forall i | 0 <= i < |msgs| ensures !IsStart(msgs[i], id) {
      assert (msgs + [m])[i] == msgs[i] && (msgs + [m])[|msgs|] == m;
    }
  }

  lemma NothingSent(msgs: seq<TunnelMessage>, id: int32)
    requires !Started(msgs, id)
    ensures JobsSent(msgs, id) == []
  {
    if msgs != [] {
      assert msgs == msgs[..|msgs| - 1] + [msgs[|msgs| - 1]];
      StartedOfMore(msgs[..|msgs| - 1], msgs[|msgs| - 1], id);
    }
  }

  lemma {:induction false} JobsSentGrows(a: seq<TunnelMessage>, b: seq<TunnelMessage>, id: int32)
    requires StartedOnce(a + b, id)
    ensures JobsSent(a, id) <= JobsSent(a + b, id)
    decreases |b|
  {
    if b == [] {
      assert a + b == a;
    } else {
      var init, m := a + b[..|b| - 1], b[|b| - 1];
      assert a + b == init + [m];
      StartedOnceBefore(init, [m], id);
      JobsSentGrows(a, b[..|b| - 1], id);
      JobsSentOfMore(init, m, id);
      if IsStart(m, id) {
        FirstStart(init, m, id);
      }
      if !Started(init, id) {
        NothingSent(init, id);
      }
    }
  }

  /** The payloads of the jobs are the payloads of the DATA messages. */
  lemma {:induction false} PayloadsOfJobsSent(msgs: seq<TunnelMessage>, id: int32)
    ensures Payloads(JobsSent(msgs, id)) == Sent(msgs, id)
  {
    if msgs != [] {
      var before, m := msgs[..|msgs| - 1], msgs[|msgs| - 1];
      PayloadsOfJobsSent(before, id);
      if !Started(before, id) {
        NothingSent(before, id);
      } else if JobsOf(m, id) != [] {
        PayloadsOfMore(JobsSent(before, id), JobsOf(m, id)[0]);
      } else {
        assert JobsSent(before, id) + [] == JobsSent(before, id);
      }
    }
  }

  lemma PayloadsInOrder(a: seq<Job>, b: seq<Job>)
    requires a <= b
    ensures Payloads(a) <= Payloads(b)
  {
    PayloadsOfPrefix(a, b[|a|..]);
    assert a + b[|a|..] == b;
  }

  lemma SentGrows(a: seq<TunnelMessage>, b: seq<TunnelMessage>, id: int32)
    requires StartedOnce(a + b, id)
    ensures Sent(a, id) <= Sent(a + b, id)
  {
    JobsSentGrows(a, b, id);
    PayloadsInOrder(JobsSent(a, id), JobsSent(a + b, id));
    PayloadsOfJobsSent(a, id);
    PayloadsOfJobsSent(a + b, id);
  }

  lemma HeardIsAPrefix(input: seq<TunnelMessage>, pos: nat, id: int32)
    requires pos <= |input| && StartedOnce(input, id)
    ensures JobsSent(input[..pos], id) <= JobsSent(input, id)
  {
    assert input[..pos] + input[pos..] == input;
    JobsSentGrows(input[..pos], input[pos..], id);
  }

  // ---------------------------------------------------------------------------
  //  Jobs in the order of the messages
  // ---------------------------------------------------------------------------

  /** In destination mode, under every schedule: a stream has one worker, and that is given a prefix
      of the jobs of its messages, DATA and STREAM_RESET alike, in the order in which they arrive. */
  lemma JobsArePrefix(env: Env, schedule: seq<(Tid, Choice)>, w: nat)
    requires !env.source
    requires w < |Run(env, INIT, schedule).workers| && w < |Run(env, INIT, schedule).workerIds|
    requires StartedOnce(env.input, Run(env, INIT, schedule).workerIds[w])
    ensures var s := Run(env, INIT, schedule);
            var id := s.workerIds[w];
            && s.pos <= |env.input|
            && s.workers[w].enqueued <= JobsSent(env.input[..s.pos], id)
            && Unique(s.workerIds, id)
  {
    var s := Run(env, INIT, schedule);
    var id := s.workerIds[w];
    InvInit();
    StreamInit(env, id);
    RunKeepsStream(env, INIT, schedule, id);
    EnqueuedFollowsSent(JobsSent(env.input[..s.pos], id), s, w);
  }

  lemma EnqueuedFollowsSent(sent: seq<Job>, s: State, w: nat)
    requires w < |s.workers| && w < |s.workerIds| && EnqueuedAt(sent, s, s.workerIds[w])
    ensures s.workers[w].enqueued <= sent
  {
    assert Given(sent, s.workers[w].enqueued, s.workerIds[w] in s.workerMap,
                 InFlight(s.read, s.workerIds, s.workerIds[w]));
  }

  /** Two prefixes of one list: the shorter is a prefix of the longer. */
  lemma PrefixesOfOne<T>(a: seq<T>, b: seq<T>, c: seq<T>)
    requires a <= c && b <= c && |a| <= |b|
    ensures a <= b
  {
  }

  /** In destination mode, under every schedule: once the worker of a stream has begun the job of the
      STREAM_RESET that is the p-th message, the jobs of all messages of the stream before it are
      over, DATA above all; so it never runs one of them afterwards, and the stream has no other
      worker that could. */
  lemma NoDataAfterReset(env: Env, schedule: seq<(Tid, Choice)>, w: nat, p: nat)
    requires !env.source
    requires w < |Run(env, INIT, schedule).workers| && w < |Run(env, INIT, schedule).workerIds|
    requires w < |Run(env, INIT, schedule).workerPc|
    requires StartedOnce(env.input, Run(env, INIT, schedule).workerIds[w])
    requires var s := Run(env, INIT, schedule);
             var id := s.workerIds[w];
             && p < |env.input| && IsReset(env.input[p], id) && Started(env.input[..p], id)
             && |JobsSent(env.input[..p], id)| < |s.workers[w].done| + |Running(s.workerPc[w])|
    ensures var s := Run(env, INIT, schedule);
            var id := s.workerIds[w];
            var worker, before := s.workers[w], JobsSent(env.input[..p], id);
            && before <= worker.done
            && Sent(env.input[..p], id) <= Payloads(worker.done)
            && (|worker.done| > |before| ==> worker.done[|before|] == ResetJob)
            && (|worker.done| == |before| ==> Running(s.workerPc[w]) == [ResetJob])
            && Unique(s.workerIds, id)
  {
    var s := Run(env, INIT, schedule);
    var id := s.workerIds[w];
    InvInit();
    RunKeepsInv(env, INIT, schedule);
    JobsArePrefix(env, schedule, w);
    assert LedgerOf(s.workers[w], s.workerPc[w]);
    HeardIsAPrefix(env.input, s.pos, id);
    ResetIsInPlace(env.input, p, id);
    BegunInPlace(JobsSent(env.input, id), JobsSent(env.input[..p], id), s.workers[w], s.workerPc[w]);
    PayloadsInOrder(JobsSent(env.input[..p], id), s.workers[w].done);
    PayloadsOfJobsSent(env.input[..p], id);
  }

  /** The job of a STREAM_RESET stands behind those of all earlier messages. */
  lemma ResetIsInPlace(input: seq<TunnelMessage>, p: nat, id: int32)
    requires p < |input| && StartedOnce(input, id) && IsReset(input[p], id) && Started(input[..p], id)
    ensures JobsSent(input[..p], id) + [ResetJob] <= JobsSent(input, id)
  {
    JobsSentNext(input, p, id);
    HeardIsAPrefix(input, p + 1, id);
  }

  lemma JobsSentNext(input: seq<TunnelMessage>, p: nat, id: int32)
    requires p < |input| && IsReset(input[p], id) && Started(input[..p], id)
    ensures JobsSent(input[..p + 1], id) == JobsSent(input[..p], id) + [ResetJob]
  {
    assert input[..p + 1] == input[..p] + [input[p]];
    JobsSentOfMore(input[..p], input[p], id);
  }

  lemma BegunInPlace(sent: seq<Job>, before: seq<Job>, worker: Worker, pc: WorkerPc)
    requires LedgerOf(worker, pc) && worker.enqueued <= sent && before + [ResetJob] <= sent
    requires |before| < |worker.done| + |Running(pc)|
    ensures before <= worker.done
    ensures |worker.done| > |before| ==> worker.done[|before|] == ResetJob
    ensures |worker.done| == |before| ==> Running(pc) == [ResetJob]
  {
    var begun := worker.done + Running(pc);
    assert begun <= worker.enqueued;
    assert (before + [ResetJob])[|before|] == ResetJob == sent[|before|] == begun[|before|];
    PrefixesOfOne(before, worker.done, sent);
  }

  // ---------------------------------------------------------------------------
  //  Prefix delivery
  // ---------------------------------------------------------------------------

  /** A socket has been handed no more than its worker has come past, and that is no more than the
      worker was given. */
  lemma HandedFollowsEnqueued(s: State, k: nat, w: nat)
    requires k < |s.sockets| && k < |s.socketIds| && w < |s.workers| && w < |s.workerIds| && w < |s.workerPc|
    requires s.workerIds[w] == s.socketIds[k]
    requires LedgerOf(s.workers[w], s.workerPc[w])
    requires HandedAt(s.workers[w], s.workerPc[w], s.sockets[k].handed, Registered(k, s.socketIds, s.socketMap))
    ensures s.sockets[k].handed <= Payloads(s.workers[w].enqueued)
  {
    RanOfEnqueued(s.workers[w], s.workerPc[w]);
  }

  lemma SocketHasAWorker(env: Env, s: State, k: nat) returns (w: nat)
    requires MapsOk(s) && k < |s.socketIds|
    requires s.pos <= |env.input| && PhaseOk(env.input[..s.pos], s.read, s.workerIds, s.socketIds, s.socketIds[k])
    ensures w < |s.workers| && w < |s.workerPc| && w < |s.workerIds| && s.workerIds[w] == s.socketIds[k]
  {
    assert s.socketIds[k] in s.workerIds;
    w :| w < |s.workerIds| && s.workerIds[w] == s.socketIds[k];
  }

  lemma StreamIsAPrefix(env: Env, s: State, k: nat)
    requires MapsOk(s) && LedgerOk(s) && k < |s.sockets| && k < |s.socketIds| && Stream(env, s, s.socketIds[k])
    requires StartedOnce(env.input, s.socketIds[k])
    ensures s.sockets[k].handed <= Sent(env.input, s.socketIds[k])
  {
    var id := s.socketIds[k];
    var w := SocketHasAWorker(env, s, k);
    HandedFollowsEnqueued(s, k, w);
    EnqueuedFollowsSent(JobsSent(env.input[..s.pos], id), s, w);
    HeardIsAPrefix(env.input, s.pos, id);
    PayloadsInOrder(s.workers[w].enqueued, JobsSent(env.input, id));
    PayloadsOfJobsSent(env.input, id);
  }

  /** In destination mode, under every schedule: the payloads handed to a local socket are, in
      order, a prefix of the payloads that arrive on its stream after the STREAM_START; and the
      stream has no other socket. */
  lemma PrefixDelivery(env: Env, schedule: seq<(Tid, Choice)>, k: nat)
    requires !env.source
    requires k < |Run(env, INIT, schedule).sockets| && k < |Run(env, INIT, schedule).socketIds|
    requires StartedOnce(env.input, Run(env, INIT, schedule).socketIds[k])
    ensures var s := Run(env, INIT, schedule);
            var id := s.socketIds[k];
            && s.sockets[k].handed <= Sent(env.input, id)
            && Unique(s.socketIds, id)
  {
    var s := Run(env, INIT, schedule);
    var id := s.socketIds[k];
    InvInit();
    StreamInit(env, id);
    RunKeepsInv(env, INIT, schedule);
    RunKeepsStream(env, INIT, schedule, id);
    StreamIsAPrefix(env, s, k);
  }
}
