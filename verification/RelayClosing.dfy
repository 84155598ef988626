/** Which connections of the relay are closed: those that another one has replaced, and those whose loops
    are over. */
module RelayClosing {
  import opened Protobuf
  import opened Relay
  import RelayPairing

  // ---------------------------------------------------------------------------
  //  The invariant
  // ---------------------------------------------------------------------------

  predicate Registered(keys: seq<Key>, m: map<Key, nat>, c: nat) {
    c < |keys| && keys[c] in m && m[keys[c]] == c
  }

  /** A connection that has been registered and has not begun to deregister is registered or closed. */
  ghost predicate ReplacedClosed(keys: seq<Key>, mains: seq<MainPc>, m: map<Key, nat>, closed: seq<bool>) {
    forall c :: 0 <= c < |mains| && c < |closed| && RelayPairing.Running(mains[c]) && !closed[c] ==>
      Registered(keys, m, c)
  }

  /** From the close on, the holder of the manager's lock finds under its key only what is closed. */
  predicate OldIsClosed(pc: MainPc, key: Key, m: map<Key, nat>, closed: seq<bool>) {
    (pc.CSelf? || pc.COther? || pc.CPut?) && key in m && m[key] < |closed| ==> closed[m[key]]
  }

  ghost predicate SectionsClose(keys: seq<Key>, mains: seq<MainPc>, m: map<Key, nat>, closed: seq<bool>) {
    forall c :: 0 <= c < |mains| && c < |keys| ==> OldIsClosed(mains[c], keys[c], m, closed)
  }

  predicate InRun(pc: MainPc) {
    pc.RSelect? || pc.RWaitWriter? || pc.RCloseFirst? || pc.RWaitReader? || pc.RClose? || pc.RCloseChannel?
  }

  predicate PastRun(pc: MainPc) {
    pc.DWant? || pc.DDelete? || pc.DOther? || pc.DRelease? || pc.MDone?
  }

  /** The two loops run from their start to the end of run, which leaves the connection closed, its
      channel closed, and both loops ended. */
  predicate LoopsAndRun(pc: MainPc, reader: ReaderPc, writer: WriterPc, closed: bool, open: bool) {
    && (reader.ROff? <==> writer.WOff?)
    && (InRun(pc) ==> !reader.ROff?)
    && (!InRun(pc) && !PastRun(pc) ==> reader.ROff?)
    && (pc.RWaitReader? || pc.RCloseChannel? ==> closed)
    && (pc.RWaitWriter? || pc.RClose? || pc.RCloseChannel? ==> reader.REnded?)
    && (pc.RCloseFirst? || pc.RWaitReader? || pc.RClose? || pc.RCloseChannel? ==> writer.WEnded?)
    && (PastRun(pc) && !reader.ROff? ==> closed && reader.REnded? && writer.WEnded?)
    && (open <==> !PastRun(pc) || reader.ROff?)
  }

  ghost predicate RunsClose(mains: seq<MainPc>, readers: seq<ReaderPc>, writers: seq<WriterPc>, closed: seq<bool>,
                            channels: seq<Channel>) {
    forall c :: 0 <= c < |mains| && c < |readers| && c < |writers| && c < |closed| && c < |channels| ==>
      LoopsAndRun(mains[c], readers[c], writers[c], closed[c], channels[c].open)
  }

  ghost predicate ReplacedOk(s: State) {
    && ReplacedClosed(s.keys, s.mains, s.peerConMap, s.closed)
    && SectionsClose(s.keys, s.mains, s.peerConMap, s.closed)
  }

  ghost predicate RunsOk(s: State) {
    RunsClose(s.mains, s.readers, s.writers, s.closed, s.channels)
  }

  lemma InvInit()
    ensures ReplacedOk(INIT) && RunsOk(INIT)
  {
  }

  // ---------------------------------------------------------------------------
  //  Steps
  // ---------------------------------------------------------------------------

  /** Nothing that is closed is ever opened again. */
  ghost predicate OnlyCloses(closed: seq<bool>, closed': seq<bool>) {
    |closed| <= |closed'| && forall c :: 0 <= c < |closed| && closed[c] ==> closed'[c]
  }

  lemma MainCloses(s: State, c: nat, ok: bool)
    requires RelayPairing.SameLengths(s) && Exists(s, c)
    ensures OnlyCloses(s.closed, MainStep(s, c, ok).closed)
  {
  }

  /** What a step of connect does to the registry, and what has been closed by then. */
  predicate ConnectEdge(pc: MainPc, next: MainPc, key: Key, c: nat, m: map<Key, nat>, m': map<Key, nat>,
                        closed: seq<bool>) {
    match pc
    case CClose => m' == m && (next.CClose? || (next.CSelf? && OldIsClosed(next, key, m, closed)))
    case CPut => m' == m[key := c] && next == RIds
    case DDelete => m' == m - {key} && next == DOther
    case CWant => m' == m && (next.CWant? || next.CClose?)
    case CSelf => m' == m && (next.CSelf? || next.COther? || next.CPut?)
    case COther(_) => m' == m && (next.COther? || next.CPut?)
    case _ =>
      && m' == m && !next.CSelf? && !next.COther? && !next.CPut?
      && (RelayPairing.Running(next) ==> RelayPairing.Running(pc))
  }

  predicate InConnect(pc: MainPc) {
    pc.CWant? || pc.CClose? || pc.CSelf? || pc.COther? || pc.CPut? || pc.DDelete?
  }

  lemma ConnectTakesEdge(s: State, c: nat, ok: bool)
    requires RelayPairing.SameLengths(s) && Exists(s, c) && InConnect(s.mains[c])
    ensures var n := MainStep(s, c, ok);
            c < |n.mains| && ConnectEdge(s.mains[c], n.mains[c], s.keys[c], c, s.peerConMap, n.peerConMap, n.closed)
  {
  }

  lemma MainTakesEdge(s: State, c: nat, ok: bool)
    requires RelayPairing.SameLengths(s) && Exists(s, c)
    ensures var n := MainStep(s, c, ok);
            c < |n.mains| && ConnectEdge(s.mains[c], n.mains[c], s.keys[c], c, s.peerConMap, n.peerConMap, n.closed)
  {
    if InConnect(s.mains[c]) {
      ConnectTakesEdge(s, c, ok);
    }
  }

  lemma ReplacedAfter(keys: seq<Key>, mains: seq<MainPc>, mains': seq<MainPc>, m: map<Key, nat>, m': map<Key, nat>,
                      closed: seq<bool>, closed': seq<bool>, c: nat)
    requires |keys| == |mains| == |mains'| == |closed| == |closed'| && c < |keys|
    requires RelayPairing.Registry(keys, mains, m)
    requires ReplacedClosed(keys, mains, m, closed) && OldIsClosed(mains[c], keys[c], m, closed)
    requires OnlyCloses(closed, closed') && ConnectEdge(mains[c], mains'[c], keys[c], c, m, m', closed')
    requires forall x :: 0 <= x < |mains| && x != c ==> mains'[x] == mains[x]
    requires mains[c].DDelete? ==> Registered(keys, m, c)
    ensures ReplacedClosed(keys, mains', m', closed')
  {
    forall x | 0 <= x < |mains'| && RelayPairing.Running(mains'[x]) && !closed'[x] ensures Registered(keys, m', x) {
      if x != c {
        assert Registered(keys, m, x);
      }
    }
  }

  lemma SectionsAfter(keys: seq<Key>, mains: seq<MainPc>, mains': seq<MainPc>, m: map<Key, nat>, m': map<Key, nat>,
                      closed: seq<bool>, closed': seq<bool>, c: nat)
    requires |keys| == |mains| == |mains'| == |closed| == |closed'| && c < |keys|
    requires SectionsClose(keys, mains, m, closed)
    requires OnlyCloses(closed, closed') && ConnectEdge(mains[c], mains'[c], keys[c], c, m, m', closed')
    requires forall x :: 0 <= x < |mains| && x != c ==> mains'[x] == mains[x]
    requires forall x :: 0 <= x < |mains| && x != c && RelayPairing.Locked(mains[x]) ==> !RelayPairing.Locked(mains[c])
    ensures SectionsClose(keys, mains', m', closed')
  {
    forall x | 0 <= x < |mains'| ensures OldIsClosed(mains'[x], keys[x], m', closed') {
      assert OldIsClosed(mains[x], keys[x], m, closed);
    }
  }

  lemma MainKeepsReplaced(s: State, c: nat, ok: bool)
    requires RelayPairing.Inv(s) && Exists(s, c) && ReplacedOk(s)
    ensures ReplacedOk(MainStep(s, c, ok))
  {
    var n := MainStep(s, c, ok);
    RelayPairing.MainKeepsLengths(s, c, ok);
    MainCloses(s, c, ok);
    MainTakesEdge(s, c, ok);
    if s.mains[c].DDelete? {
      assert RelayPairing.SectionOf(s.holder, s.keys, s.mains) == RelayPairing.At(c, s.keys[c], s.mains[c]);
    }
    assert OldIsClosed(s.mains[c], s.keys[c], s.peerConMap, s.closed);
    ReplacedAfter(s.keys, s.mains, n.mains, s.peerConMap, n.peerConMap, s.closed, n.closed, c);
    SectionsAfter(s.keys, s.mains, n.mains, s.peerConMap, n.peerConMap, s.closed, n.closed, c);
  }

  ghost predicate KeepsItsRun(n: State, c: nat) {
    && c < |n.mains| && c < |n.readers| && c < |n.writers| && c < |n.closed| && c < |n.channels|
    && LoopsAndRun(n.mains[c], n.readers[c], n.writers[c], n.closed[c], n.channels[c].open)
  }

  lemma MainBeforeRun(s: State, c: nat, ok: bool)
    requires RelayPairing.SameLengths(s) && Exists(s, c) && KeepsItsRun(s, c)
    requires !InRun(s.mains[c]) && !PastRun(s.mains[c])
    ensures KeepsItsRun(MainStep(s, c, ok), c)
  {
  }

  lemma MainStopsItsLoops(s: State, c: nat, ok: bool)
    requires RelayPairing.SameLengths(s) && Exists(s, c) && KeepsItsRun(s, c)
    requires s.mains[c].RSelect? || s.mains[c].RWaitWriter? || s.mains[c].RWaitReader?
    ensures KeepsItsRun(MainStep(s, c, ok), c)
  {
  }

  lemma MainClosesItself(s: State, c: nat, ok: bool)
    requires RelayPairing.SameLengths(s) && Exists(s, c) && KeepsItsRun(s, c)
    requires s.mains[c].RCloseFirst? || s.mains[c].RClose? || s.mains[c].RCloseChannel?
    ensures KeepsItsRun(MainStep(s, c, ok), c)
  {
  }

  lemma MainLeavesItPastRun(s: State, c: nat, ok: bool)
    requires RelayPairing.SameLengths(s) && Exists(s, c) && PastRun(s.mains[c])
    ensures var n := MainStep(s, c, ok);
            && c < |n.mains| && PastRun(n.mains[c]) && n.readers == s.readers && n.writers == s.writers
            && n.closed == s.closed && c < |n.channels| && n.channels[c].open == s.channels[c].open
  {
  }

  lemma MainPastRun(s: State, c: nat, ok: bool)
    requires RelayPairing.SameLengths(s) && Exists(s, c) && KeepsItsRun(s, c) && PastRun(s.mains[c])
    ensures KeepsItsRun(MainStep(s, c, ok), c)
  {
    MainLeavesItPastRun(s, c, ok);
  }

  lemma MainKeepsItsRun(s: State, c: nat, ok: bool)
    requires RelayPairing.SameLengths(s) && Exists(s, c) && KeepsItsRun(s, c)
    ensures KeepsItsRun(MainStep(s, c, ok), c)
  {
    if s.mains[c].RCloseFirst? || s.mains[c].RClose? || s.mains[c].RCloseChannel? {
      MainClosesItself(s, c, ok);
    } else if InRun(s.mains[c]) {
      MainStopsItsLoops(s, c, ok);
    } else if PastRun(s.mains[c]) {
      MainPastRun(s, c, ok);
    } else {
      MainBeforeRun(s, c, ok);
    }
  }

  lemma MainLeavesOtherRuns(s: State, c: nat, ok: bool)
    requires RelayPairing.SameLengths(s) && Exists(s, c)
    ensures var n := MainStep(s, c, ok);
            && RelayPairing.SameLengths(n) && |n.mains| == |s.mains|
            && forall x :: 0 <= x < |s.mains| && x != c ==>
                 && n.mains[x] == s.mains[x] && n.readers[x] == s.readers[x] && n.writers[x] == s.writers[x]
                 && n.channels[x].open == s.channels[x].open
  {
  }

  lemma MainKeepsRuns(s: State, c: nat, ok: bool)
    requires RelayPairing.SameLengths(s) && Exists(s, c) && RunsOk(s)
    ensures RunsOk(MainStep(s, c, ok))
  {
    MainKeepsItsRun(s, c, ok);
    MainLeavesOtherRuns(s, c, ok);
    MainCloses(s, c, ok);
  }

  /** Readers, writers and the sweep leave the registry alone and open nothing. */
  lemma OthersKeepReplaced(s: State, n: State)
    requires RelayPairing.SameLengths(s) && ReplacedOk(s) && OnlyCloses(s.closed, n.closed) && |n.closed| == |s.closed|
    requires n.keys == s.keys && n.mains == s.mains && n.peerConMap == s.peerConMap
    ensures ReplacedOk(n)
  {
    forall c | 0 <= c < |n.mains| && c < |n.keys| ensures OldIsClosed(n.mains[c], n.keys[c], n.peerConMap, n.closed) {
      assert OldIsClosed(s.mains[c], s.keys[c], s.peerConMap, s.closed);
    }
  }

  lemma ReaderKeepsRuns(s: State, c: nat, ok: bool, m: TunnelMessage)
    requires RelayPairing.SameLengths(s) && Exists(s, c) && RunsOk(s)
    ensures RunsOk(ReaderStep(s, c, ok, m))
  {
    assert LoopsAndRun(s.mains[c], s.readers[c], s.writers[c], s.closed[c], s.channels[c].open);
  }

  lemma WriterKeepsRuns(s: State, c: nat, ok: bool)
    requires RelayPairing.SameLengths(s) && Exists(s, c) && RunsOk(s)
    ensures RunsOk(WriterStep(s, c, ok))
  {
    assert LoopsAndRun(s.mains[c], s.readers[c], s.writers[c], s.closed[c], s.channels[c].open);
  }

  lemma SweepKeepsRuns(s: State, c: nat)
    requires RelayPairing.SameLengths(s) && Exists(s, c) && RunsOk(s)
    ensures RunsOk(Apply(s, c, CloseCon(c)))
  {
  }

  lemma ArriveKeepsAll(s: State, key: Key)
    requires RelayPairing.SameLengths(s) && RelayPairing.Registry(s.keys, s.mains, s.peerConMap)
    requires ReplacedOk(s) && RunsOk(s)
    ensures ReplacedOk(Arrived(s, key)) && RunsOk(Arrived(s, key))
  {
    var n := Arrived(s, key);
    forall c | 0 <= c < |n.mains| && c < |n.keys| ensures OldIsClosed(n.mains[c], n.keys[c], n.peerConMap, n.closed) {
      assert c < |s.mains| ==> OldIsClosed(s.mains[c], s.keys[c], s.peerConMap, s.closed);
    }
  }

  lemma WriterLeavesTheRest(s: State, c: nat, ok: bool)
    requires RelayPairing.SameLengths(s) && Exists(s, c)
    ensures var n := WriterStep(s, c, ok);
            && n.keys == s.keys && n.mains == s.mains && n.peerConMap == s.peerConMap && n.closed == s.closed
  {
  }

  lemma StepKeepsAll(s: State, turn: Turn)
    requires RelayPairing.Inv(s) && ReplacedOk(s) && RunsOk(s)
    ensures ReplacedOk(Step(s, turn)) && RunsOk(Step(s, turn))
  {
    if !s.crashed {
      match turn
      case Arrive(key) =>
        ArriveKeepsAll(s, key);
      case MainOf(c, ok) =>
        if Exists(s, c) {
          MainKeepsReplaced(s, c, ok);
          MainKeepsRuns(s, c, ok);
        }
      case ReaderOf(c, ok, m) =>
        if Exists(s, c) {
          RelayPairing.ReaderLeavesTheRest(s, c, ok, m);
          OthersKeepReplaced(s, ReaderStep(s, c, ok, m));
          ReaderKeepsRuns(s, c, ok, m);
        }
      case WriterOf(c, ok) =>
        if Exists(s, c) {
          WriterLeavesTheRest(s, c, ok);
          OthersKeepReplaced(s, WriterStep(s, c, ok));
          WriterKeepsRuns(s, c, ok);
        }
      case Sweep(c) =>
        if Exists(s, c) && Lockable(s, c) {
          OthersKeepReplaced(s, Apply(s, c, CloseCon(c)));
          SweepKeepsRuns(s, c);
        }
    }
  }

  lemma {:induction false} RunKeepsAll(s: State, turns: seq<Turn>)
    requires RelayPairing.Inv(s) && ReplacedOk(s) && RunsOk(s)
    ensures RelayPairing.Inv(Run(s, turns)) && ReplacedOk(Run(s, turns)) && RunsOk(Run(s, turns))
    decreases |turns|
  {
    if turns != [] {
      StepKeepsAll(s, turns[0]);
      RelayPairing.StepKeepsInv(s, turns[0]);
      RunKeepsAll(Step(s, turns[0]), turns[1..]);
    }
  }

  // ---------------------------------------------------------------------------
  //  What is closed
  // ---------------------------------------------------------------------------

  /** In every reachable state: a connection that has been registered, has not begun to deregister and is
      not the one registered under its key has been closed. */
  lemma ReplacedAreClosed(turns: seq<Turn>, c: nat)
    requires c < |Run(INIT, turns).mains| && RelayPairing.Running(Run(INIT, turns).mains[c])
    requires !Registered(Run(INIT, turns).keys, Run(INIT, turns).peerConMap, c)
    ensures c < |Run(INIT, turns).closed| && Run(INIT, turns).closed[c]
  {
    RelayPairing.InvInit();
    InvInit();
    RunKeepsAll(INIT, turns);
  }

  /** Hence of those that run for the same peer at most one is open. */
  lemma OneOpenPerPeer(turns: seq<Turn>, c: nat, d: nat)
    requires var s := Run(INIT, turns);
             && c < |s.mains| && d < |s.mains| && c < |s.keys| && d < |s.keys| && s.keys[c] == s.keys[d]
             && RelayPairing.Running(s.mains[c]) && RelayPairing.Running(s.mains[d])
             && c < |s.closed| && d < |s.closed| && !s.closed[c] && !s.closed[d]
    ensures c == d
  {
    if !Registered(Run(INIT, turns).keys, Run(INIT, turns).peerConMap, c) {
      ReplacedAreClosed(turns, c);
    } else if !Registered(Run(INIT, turns).keys, Run(INIT, turns).peerConMap, d) {
      ReplacedAreClosed(turns, d);
    }
  }

  /** In every reachable state: past run, a connection whose loops were started is closed, its channel is
      closed, and both loops have ended; before that its channel is open. */
  lemma FinishedAreClosed(turns: seq<Turn>, c: nat)
    requires c < |Run(INIT, turns).mains|
    ensures var s := Run(INIT, turns);
            && c < |s.readers| && c < |s.writers| && c < |s.closed| && c < |s.channels|
            && (PastRun(s.mains[c]) && !s.readers[c].ROff? ==>
                  s.closed[c] && !s.channels[c].open && s.readers[c].REnded? && s.writers[c].WEnded?)
            && (!PastRun(s.mains[c]) || s.readers[c].ROff? ==> s.channels[c].open)
  {
    RelayPairing.InvInit();
    InvInit();
    RunKeepsAll(INIT, turns);
  }
}
