/** Progress in the relay: whoever waits, waits in the end for somebody who can move, or for a reader
    that is sending into a full channel which nobody empties. The latter can come about, and then the
    manager's lock may never be released. */
module RelayProgress {
  import opened Basics
  import opened Protobuf
  import opened Relay
  import RelayPairing
  import RelayOrder

  // ---------------------------------------------------------------------------
  //  Threads
  // ---------------------------------------------------------------------------

  /** connect and run, startReadingMessage, startWritingMessage. */
  datatype Thread = MainT(c: nat) | ReaderT(c: nat) | WriterT(c: nat)

  predicate Running(writer: WriterPc) {
    writer.WWaiting? || writer.WWriting?
  }

  /** A thread that has nothing to do: it does not exist, it is not started, it has returned, or it is a
      writer with an empty channel in a connection that goes on. */
  predicate Idle(s: State, t: Thread) {
    match t
    case MainT(c) => c >= |s.mains| || s.mains[c].MDone?
    case ReaderT(c) => c >= |s.readers| || s.readers[c].ROff? || s.readers[c].REnded?
    case WriterT(c) =>
      || c >= |s.writers| || !Running(s.writers[c])
      || (s.writers[c].WWaiting? && c < |s.channels| && s.channels[c].queue == []
          && c < |s.mains| && !Cancelled(s.mains[c]))
  }

  /** Some answer of the outside lets the thread move. Writing to and reading from a websocket return,
      with success or with an error. */
  predicate Free(s: State, t: Thread)
    requires RelayPairing.SameLengths(s)
  {
    match t
    case MainT(c) => c < |s.keys| && (MainMove(s, c, true).Go? || MainMove(s, c, false).Go?)
    case ReaderT(c) => c < |s.keys| && ReaderFree(s, c)
    case WriterT(c) => c < |s.keys| && (WriterMove(s, c, true).Go? || WriterMove(s, c, false).Go?)
  }

  const SOME_MESSAGE := TunnelMessage(DATA, 0, false, [], [], [])

  predicate ReaderFree(s: State, c: nat)
    requires c < |s.readers| && c < |s.assoc| && c < |s.ins|
  {
    ReaderMove(s, c, true, SOME_MESSAGE).Go?
  }

  // ---------------------------------------------------------------------------
  //  Who waits for whom
  // ---------------------------------------------------------------------------

  /** The connection whose lock a locked section or run is about to take. */
  function Wanted(s: State, c: nat): Option<nat>
    requires c < |s.keys| && c < |s.mains|
  {
    var key, other := s.keys[c], OtherKey(s.keys[c]);
    match s.mains[c]
    case CClose => if key in s.peerConMap then Some(s.peerConMap[key]) else None
    case COther(o) => Some(o)
    case RCloseFirst => Some(c)
    case RClose => Some(c)
    case DOther => if other in s.peerConMap then Some(s.peerConMap[other]) else None
    case _ => None
  }

  /** Whom connect and run wait for. */
  function Awaited(s: State, c: nat): Option<Thread>
    requires c < |s.keys| && c < |s.mains| && c < |s.readers|
  {
    match s.mains[c]
    case CWant => if s.holder.Some? then Some(MainT(s.holder.value)) else None
    case DWant => if s.holder.Some? then Some(MainT(s.holder.value)) else None
    case RSelect => if !s.readers[c].REnded? && !Ended(s, c) then Some(ReaderT(c)) else None
    case RWaitWriter => if !Ended(s, c) then Some(WriterT(c)) else None
    case RWaitReader => if !s.readers[c].REnded? then Some(ReaderT(c)) else None
    case _ =>
      match Wanted(s, c)
      case Some(x) => if !Lockable(s, x) then Some(ReaderT(x)) else None
      case None => None
  }

  /** A reader that sends into a full channel waits for the writer that empties it, or, if that is not
      running, for the connection's run, which may yet start it or close the channel. */
  predicate Blocked(s: State, c: nat) {
    && c < |s.readers| && s.readers[c].RSending? && s.readers[c].target.Peer?
    && var t := s.readers[c].target.c;
       t < |s.channels| && s.channels[t].open && |s.channels[t].queue| >= CH_SIZE
  }

  predicate WaitsFor(s: State, t: Thread, u: Thread) {
    match t
    case MainT(c) => c < |s.keys| && c < |s.mains| && c < |s.readers| && Awaited(s, c) == Some(u)
    case ReaderT(c) =>
      && Blocked(s, c)
      && var to := s.readers[c].target.c;
         if to < |s.writers| && Running(s.writers[to]) then u == WriterT(to) else u == MainT(to)
    case WriterT(_) => false
  }

  /** A reader that is sending into a full open channel whose writer is not running. */
  predicate Jammed(s: State, t: Thread) {
    && t.ReaderT? && Blocked(s, t.c)
    && !(s.readers[t.c].target.c < |s.writers| && Running(s.writers[s.readers[t.c].target.c]))
  }

  ghost predicate Waits(s: State, t: Thread) {
    exists u :: WaitsFor(s, t, u)
  }

  // ---------------------------------------------------------------------------
  //  The loops of run
  // ---------------------------------------------------------------------------

  /** How far the two loops of a connection are, by how far run is. */
  predicate LoopsOf(pc: MainPc, reader: ReaderPc, writer: WriterPc) {
    match pc
    case RSelect => !reader.ROff? && !writer.WOff?
    case RWaitWriter => reader.REnded? && !writer.WOff?
    case RCloseFirst => !reader.ROff? && writer.WEnded?
    case RWaitReader => !reader.ROff? && writer.WEnded?
    case RClose => reader.REnded? && writer.WEnded?
    case RCloseChannel => reader.REnded? && writer.WEnded?
    case _ => true
  }

  ghost predicate LoopsOk(s: State) {
    forall c :: 0 <= c < |s.mains| && c < |s.readers| && c < |s.writers| ==>
      LoopsOf(s.mains[c], s.readers[c], s.writers[c])
  }

  ghost predicate Inv(s: State) {
    RelayOrder.Inv(s) && LoopsOk(s)
  }

  lemma MainKeepsLoopsOf(s: State, c: nat, ok: bool)
    requires Exists(s, c) && LoopsOf(s.mains[c], s.readers[c], s.writers[c])
    ensures var n := MainStep(s, c, ok); c < |n.mains| && LoopsOf(n.mains[c], n.readers[c], n.writers[c])
  {
  }

  lemma MainLeavesOtherLoops(s: State, c: nat, ok: bool)
    requires RelayPairing.SameLengths(s) && Exists(s, c)
    ensures var n := MainStep(s, c, ok);
            && RelayPairing.SameLengths(n) && |n.mains| == |s.mains|
            && forall x :: 0 <= x < |s.mains| && x != c ==>
                 n.mains[x] == s.mains[x] && n.readers[x] == s.readers[x] && n.writers[x] == s.writers[x]
  {
  }

  lemma MainKeepsLoops(s: State, c: nat, ok: bool)
    requires RelayPairing.SameLengths(s) && Exists(s, c) && LoopsOk(s)
    ensures LoopsOk(MainStep(s, c, ok))
  {
    MainKeepsLoopsOf(s, c, ok);
    MainLeavesOtherLoops(s, c, ok);
  }

  lemma ReaderKeepsLoops(s: State, c: nat, ok: bool, m: TunnelMessage)
    requires RelayPairing.SameLengths(s) && Exists(s, c) && LoopsOk(s)
    ensures LoopsOk(ReaderStep(s, c, ok, m))
  {
    assert LoopsOf(s.mains[c], s.readers[c], s.writers[c]);
  }

  lemma WriterKeepsLoops(s: State, c: nat, ok: bool)
    requires RelayPairing.SameLengths(s) && Exists(s, c) && LoopsOk(s)
    ensures LoopsOk(WriterStep(s, c, ok))
  {
    assert LoopsOf(s.mains[c], s.readers[c], s.writers[c]);
  }

  lemma StepKeepsLoops(s: State, turn: Turn)
    requires RelayPairing.SameLengths(s) && LoopsOk(s)
    ensures LoopsOk(Step(s, turn))
  {
    if !s.crashed {
      match turn
      case Arrive(key) =>
      case MainOf(c, ok) => if Exists(s, c) { MainKeepsLoops(s, c, ok); }
      case ReaderOf(c, ok, m) => if Exists(s, c) { ReaderKeepsLoops(s, c, ok, m); }
      case WriterOf(c, ok) => if Exists(s, c) { WriterKeepsLoops(s, c, ok); }
      case Sweep(c) =>
    }
  }

  lemma {:induction false} RunKeepsInv(s: State, turns: seq<Turn>)
    requires Inv(s)
    ensures Inv(Run(s, turns))
    decreases |turns|
  {
    if turns != [] {
      RelayOrder.StepKeepsOrder(s, turns[0]);
      StepKeepsLoops(s, turns[0]);
      RunKeepsInv(Step(s, turns[0]), turns[1..]);
    }
  }

  lemma InvInit()
    ensures Inv(INIT)
  {
    RelayOrder.InvInit();
  }

  // ---------------------------------------------------------------------------
  //  A thread is blocked exactly when it waits for somebody
  // ---------------------------------------------------------------------------

  lemma MainFreeOrAwaits(s: State, c: nat)
    requires RelayPairing.SameLengths(s) && c < |s.mains| && !s.mains[c].MDone?
    ensures Free(s, MainT(c)) <==> Awaited(s, c).None?
  {
  }

  lemma MainFreeOrWaits(s: State, c: nat)
    requires RelayPairing.SameLengths(s) && c < |s.mains| && !s.mains[c].MDone?
    ensures Free(s, MainT(c)) <==> !Waits(s, MainT(c))
  {
    MainFreeOrAwaits(s, c);
    if Awaited(s, c).Some? {
      assert WaitsFor(s, MainT(c), Awaited(s, c).value);
    }
  }

  /** A target of a message is a connection, and the sender has read the message. */
  lemma SenderIsReady(s: State, c: nat)
    requires Inv(s) && c < |s.readers| && s.readers[c].RSending?
    ensures s.ins[c].log != [] && s.ins[c].heard != []
    ensures s.readers[c].target.Peer? ==> s.readers[c].target.c < |s.keys|
  {
    assert RelayOrder.ReadOf(s.ins[c], s.readers[c], s.mains[c]);
    var log := s.ins[c].log;
    if s.readers[c].target.Peer? {
      assert log[|log| - 1].Peer?;
      assert !RelayOrder.Fresh(log[|log| - 1].c, s.mains);
    }
  }

  lemma ReadyReaderFreeOrWaits(s: State, c: nat)
    requires RelayPairing.SameLengths(s) && c < |s.readers| && !Idle(s, ReaderT(c))
    requires s.readers[c].RSending? ==>
               && s.ins[c].log != [] && s.ins[c].heard != []
               && (s.readers[c].target.Peer? ==> s.readers[c].target.c < |s.keys|)
    ensures Free(s, ReaderT(c)) <==> !Waits(s, ReaderT(c))
  {
    if Blocked(s, c) {
      var to := s.readers[c].target.c;
      assert WaitsFor(s, ReaderT(c), if Running(s.writers[to]) then WriterT(to) else MainT(to));
    }
  }

  lemma ReaderFreeOrWaits(s: State, c: nat)
    requires Inv(s) && c < |s.readers| && !Idle(s, ReaderT(c))
    ensures Free(s, ReaderT(c)) <==> !Waits(s, ReaderT(c))
  {
    if s.readers[c].RSending? {
      SenderIsReady(s, c);
    }
    ReadyReaderFreeOrWaits(s, c);
  }

  lemma WriterIsFree(s: State, c: nat)
    requires RelayPairing.SameLengths(s) && c < |s.writers| && !Idle(s, WriterT(c))
    ensures Free(s, WriterT(c))
  {
  }

  /** Waiting for somebody is all that ever stops a thread that has something to do. */
  lemma BlockedIffWaits(s: State, t: Thread)
    requires Inv(s) && !Idle(s, t)
    ensures Free(s, t) <==> !Waits(s, t)
  {
    match t
    case MainT(c) => MainFreeOrWaits(s, c);
    case ReaderT(c) => ReaderFreeOrWaits(s, c);
    case WriterT(c) => WriterIsFree(s, c);
  }

  // ---------------------------------------------------------------------------
  //  Chains
  // ---------------------------------------------------------------------------

  /** manager's lock < locked sections and run < readers < writers. */
  function Rank(s: State, t: Thread): nat {
    match t
    case MainT(c) => if c < |s.mains| && (s.mains[c].CWant? || s.mains[c].DWant?) then 0 else 1
    case ReaderT(_) => 2
    case WriterT(_) => 3
  }

  lemma WantedExists(s: State, c: nat)
    requires RelayPairing.MapsOk(s) && RelayPairing.PairsOk(s) && c < |s.keys| && Wanted(s, c).Some?
    ensures Wanted(s, c).value < |s.keys|
  {
    if s.mains[c].COther? {
      assert RelayPairing.SectionOf(s.holder, s.keys, s.mains) == RelayPairing.At(c, s.keys[c], s.mains[c]);
    }
  }

  /** Only a thread in a locked section holds the manager's lock. */
  lemma HolderIsInside(s: State)
    requires RelayPairing.MapsOk(s) && s.holder.Some?
    ensures Rank(s, MainT(s.holder.value)) == 1 && !Idle(s, MainT(s.holder.value))
  {
  }

  lemma MainWaitsGoUp(s: State, c: nat)
    requires RelayPairing.MapsOk(s) && RelayPairing.PairsOk(s) && LoopsOk(s) && c < |s.keys| && Awaited(s, c).Some?
    ensures Rank(s, MainT(c)) < Rank(s, Awaited(s, c).value)
    ensures !Idle(s, Awaited(s, c).value)
  {
    assert LoopsOf(s.mains[c], s.readers[c], s.writers[c]);
    if s.mains[c].CWant? || s.mains[c].DWant? {
      HolderIsInside(s);
    } else if Wanted(s, c).Some? {
      WantedExists(s, c);
    }
  }

  /** A running writer with a full channel has something to do. */
  lemma ReaderWaitsGoUp(s: State, c: nat, u: Thread)
    requires WaitsFor(s, ReaderT(c), u) && !Jammed(s, ReaderT(c))
    ensures Rank(s, ReaderT(c)) < Rank(s, u)
    ensures !Idle(s, u)
  {
  }

  /** Every wait goes up, to a thread that has something to do, but for that of a jammed reader. */
  lemma WaitsGoUp(s: State, t: Thread, u: Thread)
    requires Inv(s) && WaitsFor(s, t, u) && !Jammed(s, t)
    ensures Rank(s, t) < Rank(s, u)
    ensures !Idle(s, u)
  {
    match t
    case MainT(c) => MainWaitsGoUp(s, c);
    case ReaderT(c) => ReaderWaitsGoUp(s, c, u);
  }

  ghost predicate Chain(s: State, chain: seq<Thread>) {
    forall j :: 0 <= j < |chain| - 1 ==> WaitsFor(s, chain[j], chain[j + 1])
  }

  predicate Leads(s: State, t: Thread, u: Thread) {
    WaitsFor(s, t, u) && Rank(s, t) < Rank(s, u) && !Idle(s, u)
  }

  /** Everybody who is stuck, but for jammed readers, waits for somebody further up. */
  ghost predicate Orderly(s: State) {
    && RelayPairing.SameLengths(s)
    && forall t :: !Idle(s, t) && !Free(s, t) && !Jammed(s, t) ==> exists u :: Leads(s, t, u)
  }

  lemma InvIsOrderly(s: State)
    requires Inv(s)
    ensures Orderly(s)
  {
    forall t | !Idle(s, t) && !Free(s, t) && !Jammed(s, t) ensures exists u :: Leads(s, t, u) {
      BlockedIffWaits(s, t);
      var u :| WaitsFor(s, t, u);
      WaitsGoUp(s, t, u);
      assert Leads(s, t, u);
    }
  }

  lemma LongerChain(s: State, t: Thread, rest: seq<Thread>)
    requires |rest| > 0 && WaitsFor(s, t, rest[0]) && Chain(s, rest)
    ensures Chain(s, [t] + rest)
  {
    var chain := [t] + rest;
    forall j | 0 <= j < |chain| - 1 ensures WaitsFor(s, chain[j], chain[j + 1]) {
      if j > 0 {
        assert WaitsFor(s, rest[j - 1], rest[j]);
      }
    }
  }

  lemma {:induction false} ChainToTheEnd(s: State, t: Thread) returns (chain: seq<Thread>)
    requires Orderly(s) && !Idle(s, t)
    ensures |chain| > 0 && chain[0] == t && Chain(s, chain)
    ensures Free(s, chain[|chain| - 1]) || Jammed(s, chain[|chain| - 1])
    decreases 4 - Rank(s, t)
  {
    if Free(s, t) || Jammed(s, t) {
      chain := [t];
    } else {
      var u :| Leads(s, t, u);
      var rest := ChainToTheEnd(s, u);
      LongerChain(s, t, rest);
      chain := [t] + rest;
    }
  }

  /** In every reachable state, whoever has something to do waits in the end for somebody who can move,
      or for a reader that is sending into a full open channel whose writer is not running. */
  lemma ProgressUnlessJammed(turns: seq<Turn>, t: Thread)
    requires !Idle(Run(INIT, turns), t)
    ensures var s := Run(INIT, turns);
            && RelayPairing.SameLengths(s)
            && exists chain: seq<Thread> ::
                 && |chain| > 0 && chain[0] == t && Chain(s, chain)
                 && (Free(s, chain[|chain| - 1]) || Jammed(s, chain[|chain| - 1]))
  {
    InvInit();
    RunKeepsInv(INIT, turns);
    InvIsOrderly(Run(INIT, turns));
    var chain := ChainToTheEnd(Run(INIT, turns), t);
  }

  // ---------------------------------------------------------------------------
  //  A jam can last
  // ---------------------------------------------------------------------------

  /** Connection b has not got its SERVICE_IDS out, has left the map, and holds the manager's lock; it is
      about to take the lock of its peer a, whose reader holds it, sending into b's full channel. */
  predicate LockedUp(s: State, a: nat, b: nat) {
    && b < |s.keys| && b < |s.mains| && s.mains[b].DOther? && s.holder == Some(b)
    && OtherKey(s.keys[b]) in s.peerConMap && s.peerConMap[OtherKey(s.keys[b])] == a
    && a < |s.readers| && s.readers[a] == RSending(Peer(b))
    && b < |s.channels| && s.channels[b].open && |s.channels[b].queue| >= CH_SIZE
    && b < |s.writers| && s.writers[b].WOff?
  }

  lemma MainKeepsLockedUp(s: State, c: nat, ok: bool, a: nat, b: nat)
    requires RelayPairing.MapsOk(s) && RelayOrder.ReadsOk(s) && Exists(s, c) && LockedUp(s, a, b)
    ensures LockedUp(MainStep(s, c, ok), a, b)
  {
    assert RelayOrder.ReadOf(s.ins[a], s.readers[a], s.mains[a]);
    if c == b {
      assert MainMove(s, c, ok).Stuck?;
    } else {
      OutsiderLeavesLock(s, c, ok);
    }
  }

  /** Whoever does not hold the manager's lock, while another does, leaves it and the map alone. */
  lemma OutsiderLeavesLock(s: State, c: nat, ok: bool)
    requires RelayPairing.MapsOk(s) && Exists(s, c) && s.holder.Some? && s.holder.value != c
    ensures var n := MainStep(s, c, ok); n.holder == s.holder && n.peerConMap == s.peerConMap
  {
  }

  lemma ReaderKeepsLockedUp(s: State, c: nat, ok: bool, m: TunnelMessage, a: nat, b: nat)
    requires Exists(s, c) && LockedUp(s, a, b)
    ensures LockedUp(ReaderStep(s, c, ok, m), a, b)
  {
  }

  lemma WriterKeepsLockedUp(s: State, c: nat, ok: bool, a: nat, b: nat)
    requires Exists(s, c) && LockedUp(s, a, b)
    ensures LockedUp(WriterStep(s, c, ok), a, b)
  {
  }

  lemma StepKeepsLockedUp(s: State, turn: Turn, a: nat, b: nat)
    requires RelayPairing.MapsOk(s) && RelayOrder.ReadsOk(s) && LockedUp(s, a, b)
    ensures LockedUp(Step(s, turn), a, b)
  {
    if !s.crashed {
      match turn
      case Arrive(key) =>
      case MainOf(c, ok) => if Exists(s, c) { MainKeepsLockedUp(s, c, ok, a, b); }
      case ReaderOf(c, ok, m) => if Exists(s, c) { ReaderKeepsLockedUp(s, c, ok, m, a, b); }
      case WriterOf(c, ok) => if Exists(s, c) { WriterKeepsLockedUp(s, c, ok, a, b); }
      case Sweep(c) =>
    }
  }

  /** From there on, whatever happens, the manager's lock is never released: nobody connects and nobody
      is deregistered any more. */
  lemma {:induction false} LockIsNeverReleased(s: State, turns: seq<Turn>, a: nat, b: nat)
    requires Inv(s) && LockedUp(s, a, b)
    ensures LockedUp(Run(s, turns), a, b) && Run(s, turns).holder == Some(b)
    decreases |turns|
  {
    if turns != [] {
      RelayOrder.StepKeepsOrder(s, turns[0]);
      StepKeepsLoops(s, turns[0]);
      StepKeepsLockedUp(s, turns[0], a, b);
      LockIsNeverReleased(Step(s, turns[0]), turns[1..], a, b);
    }
  }

  // ---------------------------------------------------------------------------
  //  A run that gets there
  // ---------------------------------------------------------------------------

  const KEY_A := Key("tunnel", Source)
  const KEY_B := Key("tunnel", Destination)

  ghost predicate Reachable(s: State) {
    exists turns :: Run(INIT, turns) == s
  }

  lemma {:induction false} RunOfMore(s: State, turns: seq<Turn>, turn: Turn)
    ensures Run(s, turns + [turn]) == Step(Run(s, turns), turn)
    decreases |turns|
  {
    if turns == [] {
      assert [turn][1..] == [];
    } else {
      RunOfMore(Step(s, turns[0]), turns[1..], turn);
      assert (turns + [turn])[1..] == turns[1..] + [turn];
    }
  }

  lemma StepIsReachable(s: State, turn: Turn)
    requires Reachable(s)
    ensures Reachable(Step(s, turn))
  {
    var turns :| Run(INIT, turns) == s;
    RunOfMore(INIT, turns, turn);
    assert Run(INIT, turns + [turn]) == Step(s, turn);
  }

  /** Only A is there. */
  predicate Alone(s: State, pc: MainPc, holder: Option<nat>, registered: bool, started: bool) {
    && s.keys == [KEY_A] && s.assoc == [Nobody] && RelayPairing.SameLengths(s) && s.mains == [pc]
    && s.peerConMap == (if registered then map[KEY_A := 0] else map[]) && s.holder == holder && !s.crashed
    && s.readers == [if started then RReading else ROff]
  }

  lemma AloneSteps(s: State, pc: MainPc, holder: Option<nat>, registered: bool, started: bool)
    requires Alone(s, pc, holder, registered, started)
    ensures var n := Step(s, MainOf(0, true));
            match pc
            case CWant => holder.None? ==> Alone(n, CClose, Some(0), registered, started)
            case CClose => !registered ==> Alone(n, CSelf, holder, registered, started)
            case CSelf => Alone(n, CPut, holder, registered, started)
            case CPut => Alone(n, RIds, None, true, started)
            case RIds => Alone(n, RSpawn, holder, registered, started)
            case RSpawn => Alone(n, RSelect, holder, registered, true)
            case _ => true
  {
  }

  lemma AComesUp() returns (s: State)
    ensures Reachable(s) && Alone(s, RSelect, None, true, true)
  {
    assert Run(INIT, []) == INIT;
    s := Step(INIT, Arrive(KEY_A));
    StepIsReachable(INIT, Arrive(KEY_A));
    var pcs := [CWant, CClose, CSelf, CPut, RIds, RSpawn, RSelect];
    var i := 0;
    while i < 6
      invariant 0 <= i <= 6 && Reachable(s)
      invariant Alone(s, pcs[i], if 1 <= i <= 3 then Some(0) else None, i >= 4, i >= 6)
    {
      AloneSteps(s, pcs[i], if 1 <= i <= 3 then Some(0) else None, i >= 4, i >= 6);
      StepIsReachable(s, MainOf(0, true));
      s := Step(s, MainOf(0, true));
      i := i + 1;
    }
  }

  /** A runs; B is at some point of connect, and its channel holds k messages. */
  predicate Both(s: State, pc: MainPc, holder: Option<nat>, registered: bool, reader: ReaderPc, k: nat) {
    && s.keys == [KEY_A, KEY_B] && RelayPairing.SameLengths(s) && s.mains == [RSelect, pc]
    && s.peerConMap == (if registered then map[KEY_A := 0, KEY_B := 1] else map[KEY_A := 0])
    && s.holder == holder && !s.crashed
    && s.readers == [reader, ROff] && s.writers[1] == WOff
    && s.channels[1].open && |s.channels[1].queue| == k
    && (reader.RForward? || reader.RSending? ==> s.ins[0].heard != [])
    && (reader.RSending? ==> s.ins[0].log != [])
  }

  lemma BConnects(s: State, pc: MainPc, holder: Option<nat>)
    requires Both(s, pc, holder, pc.RIds?, RReading, 0)
    requires pc.CPut? ==> s.assoc[0] == Peer(1)
    ensures var n := Step(s, MainOf(1, true));
            match pc
            case CWant => holder.None? ==> Both(n, CClose, Some(1), false, RReading, 0)
            case CClose => Both(n, CSelf, holder, false, RReading, 0)
            case CSelf => Both(n, COther(0), holder, false, RReading, 0)
            case COther(o) => o == 0 ==> Both(n, CPut, holder, false, RReading, 0) && n.assoc[0] == Peer(1)
            case CPut => Both(n, RIds, None, true, RReading, 0) && n.assoc[0] == Peer(1)
            case _ => true
  {
  }

  lemma BComesUp() returns (s: State)
    ensures Reachable(s) && Both(s, RIds, None, true, RReading, 0) && s.assoc[0] == Peer(1)
  {
    var one := AComesUp();
    s := Step(one, Arrive(KEY_B));
    StepIsReachable(one, Arrive(KEY_B));
    var pcs := [CWant, CClose, CSelf, COther(0), CPut, RIds];
    var i := 0;
    while i < 5
      invariant 0 <= i <= 5 && Reachable(s)
      invariant Both(s, pcs[i], if 1 <= i <= 4 then Some(1) else None, i == 5, RReading, 0)
      invariant i >= 4 ==> s.assoc[0] == Peer(1)
    {
      BConnects(s, pcs[i], if 1 <= i <= 4 then Some(1) else None);
      StepIsReachable(s, MainOf(1, true));
      s := Step(s, MainOf(1, true));
      i := i + 1;
    }
  }

  /** A hears a message, looks its peer up, and sends. */
  lemma ASends(s: State, reader: ReaderPc, k: nat)
    requires Both(s, RIds, None, true, reader, k) && s.assoc[0] == Peer(1)
    ensures var n := Step(s, ReaderOf(0, true, SOME_MESSAGE));
            && n.assoc[0] == Peer(1)
            && match reader
               case RReading => Both(n, RIds, None, true, RForward, k)
               case RForward => Both(n, RIds, None, true, RSending(Peer(1)), k)
               case RSending(target) => target == Peer(1) && k < CH_SIZE ==> Both(n, RIds, None, true, RReading, k + 1)
               case _ => true
  {
  }

  lemma AReads(s: State, k: nat) returns (n: State)
    requires Reachable(s) && Both(s, RIds, None, true, RReading, k) && s.assoc[0] == Peer(1)
    ensures Reachable(n) && Both(n, RIds, None, true, RSending(Peer(1)), k) && n.assoc[0] == Peer(1)
  {
    var turn := ReaderOf(0, true, SOME_MESSAGE);
    ASends(s, RReading, k);
    StepIsReachable(s, turn);
    ASends(Step(s, turn), RForward, k);
    StepIsReachable(Step(s, turn), turn);
    n := Step(Step(s, turn), turn);
  }

  lemma AFillsTheChannel() returns (s: State)
    ensures Reachable(s) && Both(s, RIds, None, true, RSending(Peer(1)), CH_SIZE)
  {
    s := BComesUp();
    var k := 0;
    while k < CH_SIZE
      invariant 0 <= k <= CH_SIZE
      invariant Reachable(s) && Both(s, RIds, None, true, RReading, k) && s.assoc[0] == Peer(1)
    {
      var n := AReads(s, k);
      ASends(n, RSending(Peer(1)), k);
      StepIsReachable(n, ReaderOf(0, true, SOME_MESSAGE));
      s := Step(n, ReaderOf(0, true, SOME_MESSAGE));
      k := k + 1;
    }
    s := AReads(s, k);
  }

  lemma BFails(s: State, pc: MainPc, holder: Option<nat>, registered: bool)
    requires Both(s, pc, holder, registered, RSending(Peer(1)), CH_SIZE)
    ensures var n := Step(s, MainOf(1, false));
            match pc
            case RIds => Both(n, DWant, holder, registered, RSending(Peer(1)), CH_SIZE)
            case DWant => holder.None? && registered ==> Both(n, DDelete, Some(1), true, RSending(Peer(1)), CH_SIZE)
            case DDelete => registered ==> Both(n, DOther, holder, false, RSending(Peer(1)), CH_SIZE)
            case _ => true
  {
    assert registered && pc.DDelete? ==> s.peerConMap - {KEY_B} == map[KEY_A := 0];
  }

  lemma BLocksUp() returns (s: State)
    ensures Reachable(s) && Both(s, DOther, Some(1), false, RSending(Peer(1)), CH_SIZE)
  {
    s := AFillsTheChannel();
    var pcs := [RIds, DWant, DDelete, DOther];
    var i := 0;
    while i < 3
      invariant 0 <= i <= 3 && Reachable(s)
      invariant Both(s, pcs[i], if i >= 2 then Some(1) else None, i < 3, RSending(Peer(1)), CH_SIZE)
    {
      BFails(s, pcs[i], if i >= 2 then Some(1) else None, true);
      StepIsReachable(s, MainOf(1, false));
      s := Step(s, MainOf(1, false));
      i := i + 1;
    }
  }

  lemma BothLockedUp(s: State)
    requires Both(s, DOther, Some(1), false, RSending(Peer(1)), CH_SIZE)
    ensures LockedUp(s, 0, 1)
  {
  }

  /** A run from the start that locks the manager up for good: A runs, B is registered, A sends eleven
      messages to it, and B's SERVICE_IDS cannot be written. */
  lemma LockUpIsReachable() returns (turns: seq<Turn>)
    ensures LockedUp(Run(INIT, turns), 0, 1)
    ensures forall more: seq<Turn> :: Run(Run(INIT, turns), more).holder == Some(1)
  {
    var s := BLocksUp();
    BothLockedUp(s);
    turns :| Run(INIT, turns) == s;
    LockedUpForGood(turns, 0, 1);
  }

  lemma LockedUpForGood(turns: seq<Turn>, a: nat, b: nat)
    requires LockedUp(Run(INIT, turns), a, b)
    ensures forall more: seq<Turn> :: Run(Run(INIT, turns), more).holder == Some(b)
  {
    InvInit();
    RunKeepsInv(INIT, turns);
    forall more: seq<Turn> ensures Run(Run(INIT, turns), more).holder == Some(b) {
      LockIsNeverReleased(Run(INIT, turns), more, a, b);
    }
  }
}
