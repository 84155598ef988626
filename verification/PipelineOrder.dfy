/** The order of the jobs of a stream, in either mode and for any number of starts: a worker is given
    the jobs of the messages from its start on, in the order in which they arrive. */
module PipelineOrder {
  import opened Protobuf
  import opened Pipeline
  import opened PipelineInvariants
  import opened PipelineProofs
  import opened PipelineDelivery

  // ---------------------------------------------------------------------------
  //  Jobs of messages
  // ---------------------------------------------------------------------------

  /** The jobs that messages make for the workers of a stream id, starts or no starts. */
  function Jobs(msgs: seq<TunnelMessage>, id: int32): seq<Job> {
    if msgs == [] then [] else Jobs(msgs[..|msgs| - 1], id) + JobsOf(msgs[|msgs| - 1], id)
  }

  lemma JobsOfMore(msgs: seq<TunnelMessage>, m: TunnelMessage, id: int32)
    ensures Jobs(msgs + [m], id) == Jobs(msgs, id) + JobsOf(m, id)
  {
    assert (msgs + [m])[..|msgs|] == msgs;
  }

  /** The jobs of the messages from one place up to another. */
  function JobsBetween(input: seq<TunnelMessage>, a: nat, b: nat, id: int32): seq<Job>
    requires a <= b <= |input|
  {
    Jobs(input[a..b], id)
  }

  lemma JobsOfNext(input: seq<TunnelMessage>, a: nat, b: nat, id: int32)
    requires a <= b < |input|
    ensures JobsBetween(input, a, b + 1, id) == JobsBetween(input, a, b, id) + JobsOf(input[b], id)
  {
    assert input[a..b + 1] == input[a..b] + [input[b]];
    JobsOfMore(input[a..b], input[b], id);
  }

  lemma {:induction false} JobsGrow(input: seq<TunnelMessage>, a: nat, b: nat, c: nat, id: int32)
    requires a <= b <= c <= |input|
    ensures JobsBetween(input, a, b, id) <= JobsBetween(input, a, c, id)
    decreases c - b
  {
    if b < c {
      JobsGrow(input, a, b, c - 1, id);
      JobsOfNext(input, a, c - 1, id);
    }
  }

  // ---------------------------------------------------------------------------
  //  The invariant of one worker
  // ---------------------------------------------------------------------------

  /** The job that has been read for a worker and not yet enqueued. */
  function FlightTo(read: ReadPc, id: int32, w: nat): seq<Job> {
    match read
    case RExecLock(i, job) => if i == id then [job] else []
    case RExec(v, job) => if v == w then [job] else []
    case _ => []
  }

  /** A job in hand is the one of the message heard last. */
  predicate HandOk(input: seq<TunnelMessage>, pos: nat, read: ReadPc) {
    && pos <= |input|
    && (read.RExecLock? ==> pos > 0 && JobsOf(input[pos - 1], read.id) == [read.job])
  }

  predicate GivenSince(input: seq<TunnelMessage>, pos: nat, a: nat, id: int32, enqueued: seq<Job>, registered: bool,
                       inFlight: seq<Job>) {
    a <= pos <= |input| && Given(JobsBetween(input, a, pos, id), enqueued, registered, inFlight)
  }

  /** Worker w has been given the jobs from message a on. */
  predicate Since(env: Env, s: State, w: nat, a: nat) {
    && w < |s.workers| && w < |s.workerIds|
    && GivenSince(env.input, s.pos, a, s.workerIds[w], s.workers[w].enqueued,
                  Registered(w, s.workerIds, s.workerMap), FlightTo(s.read, s.workerIds[w], w))
  }

  ghost predicate InOrder(env: Env, s: State, w: nat) {
    exists a: nat :: Since(env, s, w, a)
  }

  ghost predicate OrderOk(env: Env, s: State) {
    && HandOk(env.input, s.pos, s.read)
    && forall w :: 0 <= w < |s.workers| ==> InOrder(env, s, w)
  }

  lemma OrderInit(env: Env)
    ensures OrderOk(env, INIT)
  {
  }

  // ---------------------------------------------------------------------------
  //  Steps that leave the queue alone
  // ---------------------------------------------------------------------------

  lemma GivenStays(input: seq<TunnelMessage>, pos: nat, a: nat, id: int32, enqueued: seq<Job>, registered: bool,
                   registered': bool, inFlight: seq<Job>)
    requires GivenSince(input, pos, a, id, enqueued, registered, inFlight) && (registered' ==> registered)
    ensures GivenSince(input, pos, a, id, enqueued, registered', inFlight)
  {
  }

  lemma ApplyLeavesQueue(s: State, t: Tid, act: Act, w: nat)
    requires MapsOk(s) && w < |s.workers| && !act.Enqueue?
    ensures var n := Apply(s, t, act);
            && w < |n.workers| && w < |n.workerIds| && n.workerIds[w] == s.workerIds[w]
            && n.workers[w].enqueued == s.workers[w].enqueued
            && (Registered(w, n.workerIds, n.workerMap) ==> Registered(w, s.workerIds, s.workerMap))
  {
  }

  /** What Since depends on, but for the read loop, is as after the action. */
  predicate LikeAfter(n: State, x: State) {
    n.workers == x.workers && n.workerIds == x.workerIds && n.workerMap == x.workerMap
  }

  lemma ActKeepsSince(env: Env, s: State, n: State, t: Tid, act: Act, w: nat, a: nat)
    requires MapsOk(s) && Since(env, s, w, a) && !act.Enqueue?
    requires LikeAfter(n, Apply(s, t, act)) && n.read == s.read && n.pos == s.pos
    ensures Since(env, n, w, a)
  {
    ApplyLeavesQueue(s, t, act, w);
    GivenStays(env.input, s.pos, a, s.workerIds[w], s.workers[w].enqueued, Registered(w, s.workerIds, s.workerMap),
               Registered(w, n.workerIds, n.workerMap), FlightTo(s.read, s.workerIds[w], w));
  }

  lemma SessionKeepsSince(env: Env, s: State, c: Choice, w: nat, a: nat)
    requires MapsOk(s) && Since(env, s, w, a)
    ensures Since(env, SessionStep(s, c), w, a)
  {
    if SessionMove(s, c).Go? {
      ActKeepsSince(env, s, SessionStep(s, c), Session, SessionMove(s, c).act, w, a);
    }
  }

  lemma WorkerKeepsSince(env: Env, s: State, v: nat, c: Choice, w: nat, a: nat)
    requires MapsOk(s) && Since(env, s, w, a)
    ensures Since(env, WorkerStep(s, v, c), w, a)
  {
    if v < |s.workers| && WorkerMove(s, v, c).Go? {
      ActKeepsSince(env, s, WorkerStep(s, v, c), WorkerOf(v), WorkerMove(s, v, c).act, w, a);
    }
  }

  lemma SocketKeepsSince(env: Env, s: State, k: nat, c: Choice, w: nat, a: nat)
    requires MapsOk(s) && Since(env, s, w, a)
    ensures Since(env, SocketStep(s, k, c), w, a)
  {
    if k < |s.sockets| && SocketMove(s, k, c).Go? {
      ActKeepsSince(env, s, SocketStep(s, k, c), SocketOf(k), SocketMove(s, k, c).act, w, a);
    }
  }

  lemma StopperKeepsSince(env: Env, s: State, i: nat, w: nat, a: nat)
    requires MapsOk(s) && Since(env, s, w, a)
    ensures Since(env, StopperStep(s, i), w, a)
  {
    if i < |s.stoppers| && StopperMove(s, i).Go? {
      ActKeepsSince(env, s, StopperStep(s, i), StopperOf(i), StopperMove(s, i).act, w, a);
    }
  }

  lemma AcceptorKeepsSince(env: Env, s: State, i: nat, c: Choice, w: nat, a: nat)
    requires MapsOk(s) && Since(env, s, w, a)
    ensures Since(env, AcceptorStep(env, s, i, c), w, a)
  {
    if i < |s.acceptors| && AcceptorMove(s, i, c).Go? {
      ActKeepsSince(env, s, AcceptorStep(env, s, i, c), AcceptorOf(i), AcceptorMove(s, i, c).act, w, a);
    }
  }

  // ---------------------------------------------------------------------------
  //  Steps of the read loop
  // ---------------------------------------------------------------------------

  lemma HearingIsFlight(m: TunnelMessage, id: int32, w: nat)
    ensures FlightTo(Dispatch(m), id, w) == JobsOf(m, id)
    ensures Dispatch(m).RExecLock? ==> JobsOf(m, Dispatch(m).id) == [Dispatch(m).job]
  {
  }

  lemma HearKeepsSince(env: Env, s: State, w: nat, a: nat)
    requires Since(env, s, w, a) && s.read.RNext? && s.pos < |env.input|
    ensures Since(env, s.(read := Dispatch(env.input[s.pos]), pos := s.pos + 1), w, a)
  {
    var id, enqueued := s.workerIds[w], s.workers[w].enqueued;
    JobsOfNext(env.input, a, s.pos, id);
    HearingIsFlight(env.input[s.pos], id, w);
    assert enqueued + [] == enqueued;
  }

  lemma EnqueueKeepsSince(env: Env, s: State, w: nat, a: nat)
    requires MapsOk(s) && ReadRefs(s.read, s.workerIds, s.workerMap) && Since(env, s, w, a) && s.read.RExec?
    ensures Since(env, Apply(s, ReadLoop, Enqueue(s.read.w, s.read.job)).(read := RNext), w, a)
  {
    var n := Apply(s, ReadLoop, Enqueue(s.read.w, s.read.job)).(read := RNext);
    assert n.workers[w].enqueued + [] == n.workers[w].enqueued;
  }

  /** The read loop finds the worker for the job in its hand, or finds that there is none. */
  lemma LookupKeepsSince(env: Env, s: State, c: Choice, w: nat, a: nat)
    requires MapsOk(s) && Since(env, s, w, a) && s.read.RExecLock? && ReadMove(env, s, c).Go?
    ensures Since(env, ReadStep(env, s, c), w, a)
  {
    var n := ReadStep(env, s, c);
    assert n.workers == s.workers && n.workerIds == s.workerIds && n.workerMap == s.workerMap && n.pos == s.pos;
    if Registered(w, s.workerIds, s.workerMap) {
      assert FlightTo(n.read, s.workerIds[w], w) == FlightTo(s.read, s.workerIds[w], w);
    }
  }

  /** Anywhere else the read loop has nothing in its hand, before and after. */
  predicate Elsewhere(env: Env, s: State, c: Choice) {
    !Hears(env, s, c) && !s.read.RExecLock? && !s.read.RExec? && ReadMove(env, s, c).Go?
  }

  lemma ElsewhereEmptyHanded(env: Env, s: State, c: Choice, id: int32, w: nat)
    requires Elsewhere(env, s, c)
    ensures FlightTo(s.read, id, w) == FlightTo(ReadStep(env, s, c).read, id, w) == []
    ensures ReadStep(env, s, c).pos == s.pos && !ReadStep(env, s, c).read.RExecLock?
    ensures !ReadMove(env, s, c).act.Enqueue?
  {
  }

  lemma ElsewhereKeepsSince(env: Env, s: State, c: Choice, w: nat, a: nat)
    requires MapsOk(s) && Since(env, s, w, a) && Elsewhere(env, s, c)
    ensures Since(env, ReadStep(env, s, c), w, a)
  {
    var act, n := ReadMove(env, s, c).act, ReadStep(env, s, c);
    ElsewhereEmptyHanded(env, s, c, s.workerIds[w], w);
    ApplyLeavesQueue(s, ReadLoop, act, w);
    GivenStays(env.input, s.pos, a, s.workerIds[w], s.workers[w].enqueued, Registered(w, s.workerIds, s.workerMap),
               Registered(w, n.workerIds, n.workerMap), []);
  }

  lemma HearStepKeepsSince(env: Env, s: State, c: Choice, w: nat, a: nat)
    requires Since(env, s, w, a) && Hears(env, s, c)
    ensures Since(env, ReadStep(env, s, c), w, a)
  {
    HearKeepsSince(env, s, w, a);
  }

  lemma EnqueueStepKeepsSince(env: Env, s: State, c: Choice, w: nat, a: nat)
    requires MapsOk(s) && ReadRefs(s.read, s.workerIds, s.workerMap) && Since(env, s, w, a)
    requires s.read.RExec? && ReadMove(env, s, c).Go?
    ensures Since(env, ReadStep(env, s, c), w, a)
  {
    EnqueueKeepsSince(env, s, w, a);
  }

  lemma ReadKeepsSince(env: Env, s: State, c: Choice, w: nat, a: nat)
    requires MapsOk(s) && ReadRefs(s.read, s.workerIds, s.workerMap) && Since(env, s, w, a)
    ensures Since(env, ReadStep(env, s, c), w, a)
  {
    if ReadMove(env, s, c).Go? {
      if Hears(env, s, c) {
        HearStepKeepsSince(env, s, c, w, a);
      } else if s.read.RExecLock? {
        LookupKeepsSince(env, s, c, w, a);
      } else if s.read.RExec? {
        EnqueueStepKeepsSince(env, s, c, w, a);
      } else {
        ElsewhereKeepsSince(env, s, c, w, a);
      }
    }
  }

  lemma ReadKeepsHand(env: Env, s: State, c: Choice)
    requires HandOk(env.input, s.pos, s.read)
    ensures HandOk(env.input, ReadStep(env, s, c).pos, ReadStep(env, s, c).read)
  {
    if Hears(env, s, c) {
      HearingIsFlight(env.input[s.pos], 0, 0);
    }
  }

  // ---------------------------------------------------------------------------
  //  Starts
  // ---------------------------------------------------------------------------

  /** A new worker is given the jobs from now on, the one in hand included. */
  lemma StartBegins(env: Env, s: State, n: State, id: int32) returns (a: nat)
    requires MapsOk(s) && HandOk(env.input, s.pos, s.read) && n.pos == s.pos
    requires |n.workers| == |s.workers| + 1 && n.workers[|s.workers|] == FRESH_WORKER
    requires n.workerIds == s.workerIds + [id] && n.workerMap == s.workerMap[id := |s.workerIds|]
    requires n.read == s.read || (s.read.RStart? && n.read.RDial?)
    requires !s.read.RExec?
    ensures Since(env, n, |s.workers|, a)
  {
    assert env.input[s.pos..s.pos] == [];
    if s.read.RExecLock? && s.read.id == id {
      a := s.pos - 1;
      assert env.input[a..a] == [];
      JobsOfNext(env.input, a, a, id);
    } else {
      a := s.pos;
    }
  }

  lemma ReadStarts(env: Env, s: State, c: Choice)
    requires MapsOk(s) && HandOk(env.input, s.pos, s.read) && |s.workers| < |ReadStep(env, s, c).workers|
    ensures |ReadStep(env, s, c).workers| == |s.workers| + 1 && InOrder(env, ReadStep(env, s, c), |s.workers|)
  {
    var _ := StartBegins(env, s, ReadStep(env, s, c), s.read.id);
  }

  lemma AcceptorStarts(env: Env, s: State, i: nat, c: Choice)
    requires MapsOk(s) && HandOk(env.input, s.pos, s.read) && |s.workers| < |AcceptorStep(env, s, i, c).workers|
    ensures |AcceptorStep(env, s, i, c).workers| == |s.workers| + 1
    ensures InOrder(env, AcceptorStep(env, s, i, c), |s.workers|)
  {
    var _ := StartBegins(env, s, AcceptorStep(env, s, i, c), s.acceptors[i].id);
  }

  lemma OthersStartNothing(env: Env, s: State, t: Tid, c: Choice)
    requires t != ReadLoop && !t.AcceptorOf?
    ensures |Step(env, s, t, c).workers| == |s.workers|
  {
    match t
    case Session =>
    case WorkerOf(v) => WorkerLeavesManager(s, v, c);
    case SocketOf(k) => SocketLeavesTheRest(s, k, c);
    case StopperOf(i) => StopperLeavesTheRest(s, i);
  }

  /** Only the read loop and the acceptors start workers, one at a time. */
  lemma NewWorkerInOrder(env: Env, s: State, t: Tid, c: Choice, w: nat)
    requires MapsOk(s) && HandOk(env.input, s.pos, s.read)
    requires |s.workers| <= w < |Step(env, s, t, c).workers|
    ensures InOrder(env, Step(env, s, t, c), w)
  {
    if t == ReadLoop {
      ReadStarts(env, s, c);
    } else if t.AcceptorOf? {
      AcceptorStarts(env, s, t.i, c);
    } else {
      OthersStartNothing(env, s, t, c);
    }
  }

  // ---------------------------------------------------------------------------
  //  Every step, every run
  // ---------------------------------------------------------------------------

  lemma StepKeepsSince(env: Env, s: State, t: Tid, c: Choice, w: nat, a: nat)
    requires MapsOk(s) && ReadRefs(s.read, s.workerIds, s.workerMap) && Since(env, s, w, a)
    ensures Since(env, Step(env, s, t, c), w, a)
  {
    match t
    case ReadLoop => ReadKeepsSince(env, s, c, w, a);
    case Session => SessionKeepsSince(env, s, c, w, a);
    case WorkerOf(v) => WorkerKeepsSince(env, s, v, c, w, a);
    case SocketOf(k) => SocketKeepsSince(env, s, k, c, w, a);
    case StopperOf(i) => StopperKeepsSince(env, s, i, w, a);
    case AcceptorOf(i) => AcceptorKeepsSince(env, s, i, c, w, a);
  }

  lemma OthersKeepHand(env: Env, s: State, t: Tid, c: Choice)
    requires t != ReadLoop
    ensures Step(env, s, t, c).read == s.read && Step(env, s, t, c).pos == s.pos
  {
  }

  lemma StepKeepsOrder(env: Env, s: State, t: Tid, c: Choice)
    requires MapsOk(s) && ReadRefs(s.read, s.workerIds, s.workerMap) && OrderOk(env, s)
    ensures OrderOk(env, Step(env, s, t, c))
  {
    var n := Step(env, s, t, c);
    if t == ReadLoop {
      ReadKeepsHand(env, s, c);
    } else {
      OthersKeepHand(env, s, t, c);
    }
    forall w | 0 <= w < |n.workers| ensures InOrder(env, n, w) {
      if w < |s.workers| {
        assert InOrder(env, s, w);
        var a: nat :| Since(env, s, w, a);
        StepKeepsSince(env, s, t, c, w, a);
      } else {
        NewWorkerInOrder(env, s, t, c, w);
      }
    }
  }

  lemma {:induction false} RunKeepsOrder(env: Env, s: State, schedule: seq<(Tid, Choice)>)
    requires Inv(s) && OrderOk(env, s)
    ensures OrderOk(env, Run(env, s, schedule))
    decreases |schedule|
  {
    if schedule != [] {
      StepKeepsInv(env, s, schedule[0].0, schedule[0].1);
      StepKeepsOrder(env, s, schedule[0].0, schedule[0].1);
      RunKeepsOrder(env, Step(env, s, schedule[0].0, schedule[0].1), schedule[1..]);
    }
  }

  /** Where a worker's jobs begin stays the same over any further run. */
  lemma {:induction false} RunKeepsSince(env: Env, s: State, schedule: seq<(Tid, Choice)>, w: nat, a: nat)
    requires Inv(s) && Since(env, s, w, a)
    ensures Since(env, Run(env, s, schedule), w, a)
    decreases |schedule|
  {
    if schedule != [] {
      StepKeepsInv(env, s, schedule[0].0, schedule[0].1);
      StepKeepsSince(env, s, schedule[0].0, schedule[0].1, w, a);
      RunKeepsSince(env, Step(env, s, schedule[0].0, schedule[0].1), schedule[1..], w, a);
    }
  }

  // ---------------------------------------------------------------------------
  //  In order, and nothing after a reset
  // ---------------------------------------------------------------------------

  /** In either mode, under every schedule, however often its stream is started: a worker is given a
      prefix of the jobs of the messages from some place on, DATA and STREAM_RESET alike, in the order
      in which they arrive. While it is registered that is all of them but the one in hand. */
  lemma JobsInOrder(env: Env, schedule: seq<(Tid, Choice)>, w: nat) returns (a: nat)
    requires w < |Run(env, INIT, schedule).workers|
    ensures var s := Run(env, INIT, schedule);
            && w < |s.workerIds| && Since(env, s, w, a) && a <= s.pos <= |env.input|
            && s.workers[w].enqueued <= JobsBetween(env.input, a, s.pos, s.workerIds[w])
  {
    InvInit();
    OrderInit(env);
    RunKeepsInv(env, INIT, schedule);
    RunKeepsOrder(env, INIT, schedule);
    assert InOrder(env, Run(env, INIT, schedule), w);
    a :| Since(env, Run(env, INIT, schedule), w, a);
  }

  /** The job of the p-th message stands behind those of all messages before it. */
  lemma ResetStandsBehind(input: seq<TunnelMessage>, a: nat, p: nat, pos: nat, id: int32, begun: nat)
    requires a <= p < |input| && a <= pos <= |input| && IsReset(input[p], id)
    requires |JobsBetween(input, a, p, id)| < begun <= |JobsBetween(input, a, pos, id)|
    ensures JobsBetween(input, a, p, id) + [ResetJob] <= JobsBetween(input, a, pos, id)
  {
    if pos <= p {
      JobsGrow(input, a, pos, p, id);
    } else {
      JobsGrow(input, a, p + 1, pos, id);
      JobsOfNext(input, a, p, id);
    }
  }

  /** The reset of message p has begun at its place in the worker's queue, and is done or running. */
  predicate ResetBegun(input: seq<TunnelMessage>, a: nat, p: nat, id: int32, worker: Worker, pc: WorkerPc)
    requires a <= p <= |input|
  {
    |JobsBetween(input, a, p, id)| < |worker.done| + |Running(pc)|
  }

  /** Everything the worker was to run before the reset is over, the reset itself is done or running at
      its place. */
  predicate OverBefore(before: seq<Job>, worker: Worker, pc: WorkerPc) {
    && before <= worker.done
    && (|worker.done| > |before| ==> worker.done[|before|] == ResetJob)
    && (|worker.done| == |before| ==> Running(pc) == [ResetJob])
  }

  /** If the reset of message p has begun, everything before it is over. */
  predicate ResetEnds(env: Env, s: State, w: nat, a: nat, p: nat)
    requires w < |s.workers| && w < |s.workerPc| && w < |s.workerIds| && a <= p <= |env.input|
  {
    ResetBegun(env.input, a, p, s.workerIds[w], s.workers[w], s.workerPc[w]) ==>
      OverBefore(JobsBetween(env.input, a, p, s.workerIds[w]), s.workers[w], s.workerPc[w])
  }

  lemma ResetEndsWhatIsBefore(env: Env, s: State, w: nat, a: nat, p: nat)
    requires MapsOk(s) && LedgerOk(s) && Since(env, s, w, a)
    requires a <= p < |env.input| && IsReset(env.input[p], s.workerIds[w])
    ensures ResetEnds(env, s, w, a, p)
  {
    var id, worker := s.workerIds[w], s.workers[w];
    var sent, before := JobsBetween(env.input, a, s.pos, id), JobsBetween(env.input, a, p, id);
    assert LedgerOf(worker, s.workerPc[w]);
    assert worker.enqueued <= sent;
    if ResetBegun(env.input, a, p, id, worker, s.workerPc[w]) {
      ResetStandsBehind(env.input, a, p, s.pos, id, |worker.done| + |Running(s.workerPc[w])|);
      BegunInPlace(sent, before, worker, s.workerPc[w]);
    }
  }

  /** DATA received before a STREAM_RESET is never processed after it: in either mode, under every
      schedule, there is a place in the input from which on a worker gets the jobs of its stream, and
      once it has begun the job of a STREAM_RESET, those of all messages from that place up to the
      reset are over. If the stream was started once, no other worker can run one either. */
  lemma NothingAfterReset(env: Env, schedule: seq<(Tid, Choice)>, w: nat) returns (a: nat)
    requires w < |Run(env, INIT, schedule).workers|
    ensures var s := Run(env, INIT, schedule);
            && w < |s.workerIds| && w < |s.workerPc| && Since(env, s, w, a)
            && (forall p: nat :: a <= p < |env.input| && IsReset(env.input[p], s.workerIds[w]) ==>
                  ResetEnds(env, s, w, a, p))
            && (Unique(s.workerIds, s.workerIds[w]) ==>
                  forall v :: 0 <= v < |s.workerIds| && s.workerIds[v] == s.workerIds[w] ==> v == w)
  {
    a := JobsInOrder(env, schedule, w);
    InvInit();
    RunKeepsInv(env, INIT, schedule);
    var s := Run(env, INIT, schedule);
    forall p: nat | a <= p < |env.input| && IsReset(env.input[p], s.workerIds[w]) ensures ResetEnds(env, s, w, a, p) {
      ResetEndsWhatIsBefore(env, s, w, a, p);
    }
  }
}
