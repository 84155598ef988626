/** The pairing of the relay: who is associated with whom, in every reachable state. */
module RelayPairing {
  import opened Basics
  import opened Protobuf
  import opened Relay

  // ---------------------------------------------------------------------------
  //  The invariant
  // ---------------------------------------------------------------------------

  predicate SameLengths(s: State) {
    |s.keys| == |s.assoc| == |s.closed| == |s.closes| == |s.channels| == |s.outs| == |s.ins|
    == |s.mains| == |s.readers| == |s.writers|
  }

  /** Positions inside a locked section of connect. */
  predicate Locked(pc: MainPc) {
    pc.CClose? || pc.CSelf? || pc.COther? || pc.CPut? || pc.DDelete? || pc.DOther? || pc.DRelease?
  }

  ghost predicate ManagerLock(holder: Option<nat>, mains: seq<MainPc>) {
    && (holder.Some? ==> holder.value < |mains| && Locked(mains[holder.value]))
    && (forall c :: 0 <= c < |mains| && Locked(mains[c]) ==> holder == Some(c))
  }

  /** Registered connections are registered under their own key, once their first locked section is
      over and before the second has deleted them; the key has one of the two known modes. */
  predicate Running(pc: MainPc) {
    !pc.CWant? && !pc.CClose? && !pc.CSelf? && !pc.COther? && !pc.CPut? && !pc.DOther? && !pc.DRelease? && !pc.MDone?
  }

  ghost predicate Registry(keys: seq<Key>, mains: seq<MainPc>, m: map<Key, nat>) {
    && (forall k :: k in m ==> m[k] < |keys| && m[k] < |mains| && keys[m[k]] == k && Running(mains[m[k]]))
    && (forall c :: 0 <= c < |keys| ==> !keys[c].mode.Unknown?)
  }

  /** A connection only ever points at the nil writer or at one of the same tunnel and the opposite
      mode. */
  ghost predicate Opposite(keys: seq<Key>, assoc: seq<Target>) {
    forall c :: 0 <= c < |assoc| && c < |keys| && assoc[c].Peer? ==>
      assoc[c].c < |keys| && keys[assoc[c].c] == OtherKey(keys[c])
  }

  /** A registered connection points at the other peer of its tunnel, or at the nil writer when
      there is none. */
  predicate PairedAt(k: Key, m: map<Key, nat>, assoc: seq<Target>) {
    k in m && m[k] < |assoc| ==>
      assoc[m[k]] == if OtherKey(k) in m then Peer(m[OtherKey(k)]) else Nobody
  }

  /** Where the holder of the manager's lock is, and which key it works on. */
  datatype Section = Outside | At(c: nat, key: Key, pc: MainPc)

  function SectionOf(holder: Option<nat>, keys: seq<Key>, mains: seq<MainPc>): Section {
    if holder.Some? && holder.value < |keys| && holder.value < |mains|
    then At(holder.value, keys[holder.value], mains[holder.value])
    else Outside
  }

  /** How far the two keys of the tunnel may be out of step at a position of a locked section. */
  predicate InStep(c: nat, key: Key, pc: MainPc, m: map<Key, nat>, assoc: seq<Target>) {
    var other := OtherKey(key);
    && c < |assoc|
    && match pc
       case COther(o) =>
         && other in m && m[other] == o && assoc[c] == Peer(o)
         && PairedAt(key, m, assoc) && PairedAt(other, m, assoc)
       case CPut =>
         if other in m && m[other] < |assoc| then assoc[c] == Peer(m[other]) && assoc[m[other]] == Peer(c)
         else assoc[c] == Nobody
       case DDelete => key in m && m[key] == c && PairedAt(key, m, assoc) && PairedAt(other, m, assoc)
       case DOther => key !in m
       case _ => PairedAt(key, m, assoc) && PairedAt(other, m, assoc)
  }

  predicate Concerns(section: Section, k: Key) {
    section.At? && (k == section.key || k == OtherKey(section.key))
  }

  /** Inside a locked section the two keys of its tunnel may be out of step; all others, and
      outside all, are paired. */
  ghost predicate Pairing(section: Section, m: map<Key, nat>, assoc: seq<Target>) {
    && (forall k :: k in m && !Concerns(section, k) ==> PairedAt(k, m, assoc))
    && (section.At? ==> InStep(section.c, section.key, section.pc, m, assoc))
  }

  ghost predicate MapsOk(s: State) {
    SameLengths(s) && ManagerLock(s.holder, s.mains) && Registry(s.keys, s.mains, s.peerConMap)
  }

  ghost predicate PairsOk(s: State) {
    Opposite(s.keys, s.assoc) && Pairing(SectionOf(s.holder, s.keys, s.mains), s.peerConMap, s.assoc)
  }

  /** At most one close is attempted, by whoever finds the connection not closed. */
  ghost predicate ClosesOk(s: State) {
    forall c :: 0 <= c < |s.closed| && c < |s.closes| ==> s.closes[c] == if s.closed[c] then 1 else 0
  }

  ghost predicate Inv(s: State) {
    MapsOk(s) && PairsOk(s) && ClosesOk(s)
  }

  lemma InvInit()
    ensures Inv(INIT)
  {
  }

  lemma OtherOfOther(k: Key)
    ensures OtherKey(OtherKey(k)) == k
    ensures !k.mode.Unknown? ==> OtherKey(k) != k
  {
  }

  // ---------------------------------------------------------------------------
  //  Steps
  // ---------------------------------------------------------------------------

  lemma MainKeepsLengths(s: State, c: nat, ok: bool)
    requires SameLengths(s) && Exists(s, c)
    ensures var n := MainStep(s, c, ok);
            && SameLengths(n) && n.keys == s.keys
            && (forall x :: 0 <= x < |s.mains| && x != c ==> n.mains[x] == s.mains[x])
  {
  }

  /** A connection is inside a locked section exactly while it holds the lock. */
  lemma MainHoldsInside(s: State, c: nat, ok: bool)
    requires Exists(s, c) && (Locked(s.mains[c]) <==> s.holder == Some(c))
    ensures var n := MainStep(s, c, ok);
            && c < |n.mains| && (Locked(n.mains[c]) <==> n.holder == Some(c))
            && (n.holder == s.holder || (s.holder.None? && n.holder == Some(c))
                || (s.holder == Some(c) && n.holder.None?))
  {
  }

  lemma MainKeepsLock(s: State, c: nat, ok: bool)
    requires SameLengths(s) && ManagerLock(s.holder, s.mains) && Exists(s, c)
    ensures var n := MainStep(s, c, ok); SameLengths(n) && ManagerLock(n.holder, n.mains)
  {
    MainKeepsLengths(s, c, ok);
    MainHoldsInside(s, c, ok);
  }

  /** A step leaves the map alone, puts its connection, or deletes its key; it does not leave a registered
      connection that is past its run. */
  lemma MainRegisters(s: State, c: nat, ok: bool)
    requires Exists(s, c)
    ensures var n, key := MainStep(s, c, ok), s.keys[c];
            && c < |n.mains|
            && (|| (&& n.peerConMap == s.peerConMap
                    && (Running(s.mains[c]) && key in s.peerConMap && s.peerConMap[key] == c ==> Running(n.mains[c])))
                || (n.peerConMap == s.peerConMap[key := c] && Running(n.mains[c]))
                || n.peerConMap == s.peerConMap - {key})
  {
  }

  lemma MainKeepsRegistry(s: State, c: nat, ok: bool)
    requires SameLengths(s) && Registry(s.keys, s.mains, s.peerConMap) && Exists(s, c)
    ensures var n := MainStep(s, c, ok); Registry(n.keys, n.mains, n.peerConMap)
  {
    var n := MainStep(s, c, ok);
    MainKeepsLengths(s, c, ok);
    MainRegisters(s, c, ok);
    RegistryAfter(s.keys, s.mains, n.mains, s.peerConMap, n.peerConMap, c);
  }

  lemma RegistryAfter(keys: seq<Key>, mains: seq<MainPc>, mains': seq<MainPc>,
                      m: map<Key, nat>, m': map<Key, nat>, c: nat)
    requires Registry(keys, mains, m) && |mains'| == |mains| == |keys| && c < |keys|
    requires forall x :: 0 <= x < |mains| && x != c ==> mains'[x] == mains[x]
    requires (m' == m && (Running(mains[c]) && keys[c] in m && m[keys[c]] == c ==> Running(mains'[c])))
          || (m' == m[keys[c] := c] && Running(mains'[c]))
          || m' == m - {keys[c]}
    ensures Registry(keys, mains', m')
  {
    forall k | k in m' ensures m'[k] < |keys| && keys[m'[k]] == k && Running(mains'[m'[k]]) {
      if k in m && m'[k] == m[k] {
        assert keys[m[k]] == k && Running(mains[m[k]]);
      }
    }
  }

  /** Whom a step associates. */
  function Associated(s: State, c: nat, ok: bool): Option<(nat, Target)>
    requires Exists(s, c)
  {
    match MainMove(s, c, ok)
    case Stuck => None
    case Go(_, a) => if a.Associate? then Some((a.c, a.target)) else None
  }

  lemma MainAssociatesOpposites(s: State, c: nat, ok: bool)
    requires MapsOk(s) && PairsOk(s) && Exists(s, c) && Associated(s, c, ok).Some?
    ensures var (x, target) := Associated(s, c, ok).value;
            target.Peer? ==>
              x < |s.keys| && target.c < |s.keys| && s.keys[target.c] == OtherKey(s.keys[x])
  {
    OtherOfOther(s.keys[c]);
  }

  lemma MainAssociatesOne(s: State, c: nat, ok: bool)
    requires Exists(s, c)
    ensures var n := MainStep(s, c, ok);
            && n.keys == s.keys
            && match Associated(s, c, ok)
               case None => n.assoc == s.assoc
               case Some((x, target)) => n.assoc == if x < |s.assoc| then s.assoc[x := target] else s.assoc
  {
  }

  /** connect associates with a connection of the same tunnel and the opposite mode, or with the nil
      writer. */
  lemma MainKeepsOpposite(s: State, c: nat, ok: bool)
    requires MapsOk(s) && PairsOk(s) && Exists(s, c)
    ensures var n := MainStep(s, c, ok); Opposite(n.keys, n.assoc)
  {
    MainAssociatesOne(s, c, ok);
    if Associated(s, c, ok).Some? {
      MainAssociatesOpposites(s, c, ok);
    }
  }

  /** What a locked section does concerns its own tunnel. */
  lemma OtherTunnelsStayPaired(s: State, c: nat, ok: bool, k: Key)
    requires MapsOk(s) && Exists(s, c)
    requires Locked(s.mains[c]) ==> InStep(c, s.keys[c], s.mains[c], s.peerConMap, s.assoc)
    requires k != s.keys[c] && k != OtherKey(s.keys[c]) && PairedAt(k, s.peerConMap, s.assoc)
    ensures var n := MainStep(s, c, ok); PairedAt(k, n.peerConMap, n.assoc)
  {
    OtherOfOther(s.keys[c]);
    OtherOfOther(k);
  }

  predicate InStepAfter(s: State, c: nat, n: State)
    requires c < |s.keys|
  {
    var key := s.keys[c];
    && c < |n.mains|
    && if Locked(n.mains[c]) then InStep(c, key, n.mains[c], n.peerConMap, n.assoc)
       else PairedAt(key, n.peerConMap, n.assoc) && PairedAt(OtherKey(key), n.peerConMap, n.assoc)
  }

  lemma CloseAndLookKeepStep(s: State, c: nat, ok: bool)
    requires MapsOk(s) && Exists(s, c) && (s.mains[c].CClose? || s.mains[c].CSelf?)
    requires InStep(c, s.keys[c], s.mains[c], s.peerConMap, s.assoc)
    ensures InStepAfter(s, c, MainStep(s, c, ok))
  {
    OtherOfOther(s.keys[c]);
  }

  lemma PairAndPutKeepStep(s: State, c: nat, ok: bool)
    requires MapsOk(s) && Exists(s, c) && (s.mains[c].COther? || s.mains[c].CPut?)
    requires InStep(c, s.keys[c], s.mains[c], s.peerConMap, s.assoc)
    ensures InStepAfter(s, c, MainStep(s, c, ok))
  {
    OtherOfOther(s.keys[c]);
  }

  lemma SecondSectionKeepsStep(s: State, c: nat, ok: bool)
    requires MapsOk(s) && Exists(s, c)
    requires s.mains[c].DDelete? || s.mains[c].DOther? || s.mains[c].DRelease?
    requires InStep(c, s.keys[c], s.mains[c], s.peerConMap, s.assoc)
    ensures InStepAfter(s, c, MainStep(s, c, ok))
  {
    OtherOfOther(s.keys[c]);
  }

  /** Step by step through the locked sections: in step at each position, and in the end paired. */
  lemma SectionKeepsStep(s: State, c: nat, ok: bool)
    requires MapsOk(s) && Exists(s, c) && Locked(s.mains[c])
    requires InStep(c, s.keys[c], s.mains[c], s.peerConMap, s.assoc)
    ensures InStepAfter(s, c, MainStep(s, c, ok))
  {
    if s.mains[c].DDelete? || s.mains[c].DOther? || s.mains[c].DRelease? {
      SecondSectionKeepsStep(s, c, ok);
    } else if s.mains[c].CClose? || s.mains[c].CSelf? {
      CloseAndLookKeepStep(s, c, ok);
    } else {
      PairAndPutKeepStep(s, c, ok);
    }
  }

  /** A step inside registers and deletes under its own key only. */
  lemma InsideLeavesOtherKeys(s: State, c: nat, ok: bool)
    requires Exists(s, c)
    ensures var n := MainStep(s, c, ok);
            forall k :: k in n.peerConMap && k != s.keys[c] ==> k in s.peerConMap
  {
  }

  lemma InsideKeepsPairing(s: State, c: nat, ok: bool)
    requires MapsOk(s) && PairsOk(s) && Exists(s, c) && Locked(s.mains[c])
    ensures var n := MainStep(s, c, ok); Pairing(SectionOf(n.holder, n.keys, n.mains), n.peerConMap, n.assoc)
  {
    var n, key := MainStep(s, c, ok), s.keys[c];
    assert SectionOf(s.holder, s.keys, s.mains) == At(c, key, s.mains[c]);
    SectionKeepsStep(s, c, ok);
    InsideLeavesOtherKeys(s, c, ok);
    forall k | k in n.peerConMap && k != key && k != OtherKey(key) ensures PairedAt(k, n.peerConMap, n.assoc) {
      assert !Concerns(At(c, key, s.mains[c]), k);
      OtherTunnelsStayPaired(s, c, ok, k);
    }
    MainKeepsLengths(s, c, ok);
    MainHoldsInside(s, c, ok);
    PairingAfter(c, key, n.mains[c], n.peerConMap, n.assoc);
  }

  lemma PairingAfter(c: nat, key: Key, pc: MainPc, m: map<Key, nat>, assoc: seq<Target>)
    requires forall k :: k in m && k != key && k != OtherKey(key) ==> PairedAt(k, m, assoc)
    requires if Locked(pc) then InStep(c, key, pc, m, assoc)
             else PairedAt(key, m, assoc) && PairedAt(OtherKey(key), m, assoc)
    ensures Pairing(if Locked(pc) then At(c, key, pc) else Outside, m, assoc)
  {
  }

  /** Outside the locked sections a step leaves the pairing alone, and at most enters a section. */
  lemma OutsideChangesNothing(s: State, c: nat, ok: bool)
    requires SameLengths(s) && ManagerLock(s.holder, s.mains) && Exists(s, c) && !Locked(s.mains[c])
    ensures var n := MainStep(s, c, ok);
            && n.peerConMap == s.peerConMap && n.assoc == s.assoc && n.keys == s.keys
            && (n.holder == s.holder ==> SectionOf(n.holder, n.keys, n.mains) == SectionOf(s.holder, s.keys, s.mains))
            && (n.holder != s.holder ==>
                  && s.holder.None? && SectionOf(n.holder, n.keys, n.mains) == At(c, s.keys[c], n.mains[c])
                  && (n.mains[c].CClose? || n.mains[c].DRelease?
                      || (n.mains[c].DDelete? && s.keys[c] in s.peerConMap && s.peerConMap[s.keys[c]] == c)))
  {
  }

  lemma OutsideKeepsPairing(s: State, c: nat, ok: bool)
    requires SameLengths(s) && ManagerLock(s.holder, s.mains) && PairsOk(s) && Exists(s, c) && !Locked(s.mains[c])
    ensures var n := MainStep(s, c, ok); Pairing(SectionOf(n.holder, n.keys, n.mains), n.peerConMap, n.assoc)
  {
    var n := MainStep(s, c, ok);
    OutsideChangesNothing(s, c, ok);
    if n.holder != s.holder {
      EnteringIsInStep(c, s.keys[c], n.mains[c], s.peerConMap, s.assoc);
    }
  }

  lemma EnteringIsInStep(c: nat, key: Key, pc: MainPc, m: map<Key, nat>, assoc: seq<Target>)
    requires Pairing(Outside, m, assoc) && c < |assoc|
    requires pc.CClose? || pc.DRelease? || (pc.DDelete? && key in m && m[key] == c)
    ensures Pairing(At(c, key, pc), m, assoc)
  {
    assert !Concerns(Outside, key) && !Concerns(Outside, OtherKey(key));
  }

  lemma MainKeepsInv(s: State, c: nat, ok: bool)
    requires Inv(s) && Exists(s, c)
    ensures Inv(MainStep(s, c, ok))
  {
    MainKeepsLock(s, c, ok);
    MainKeepsRegistry(s, c, ok);
    MainKeepsOpposite(s, c, ok);
    if Locked(s.mains[c]) {
      InsideKeepsPairing(s, c, ok);
    } else {
      OutsideKeepsPairing(s, c, ok);
    }
    MainKeepsCloses(s, c, ok);
  }

  lemma MainKeepsCloses(s: State, c: nat, ok: bool)
    requires SameLengths(s) && ClosesOk(s) && Exists(s, c)
    ensures ClosesOk(MainStep(s, c, ok))
  {
  }

  lemma ArriveKeepsInv(s: State, key: Key)
    requires Inv(s)
    ensures Inv(Arrived(s, key))
  {
    var n := Arrived(s, key);
    assert SectionOf(n.holder, n.keys, n.mains) == SectionOf(s.holder, s.keys, s.mains);
  }

  /** Readers, writers and the sweep only ever close. */
  lemma OthersKeepInv(s: State, n: State)
    requires Inv(s) && SameLengths(n) && ClosesOk(n)
    requires n.keys == s.keys && n.assoc == s.assoc && n.mains == s.mains
    requires n.peerConMap == s.peerConMap && n.holder == s.holder
    ensures Inv(n)
  {
  }

  lemma ReaderLeavesTheRest(s: State, c: nat, ok: bool, m: TunnelMessage)
    requires SameLengths(s) && Exists(s, c)
    ensures var n := ReaderStep(s, c, ok, m);
            && SameLengths(n) && n.closed == s.closed && n.closes == s.closes
            && n.keys == s.keys && n.assoc == s.assoc && n.mains == s.mains
            && n.peerConMap == s.peerConMap && n.holder == s.holder
  {
  }

  lemma ReaderKeepsInv(s: State, c: nat, ok: bool, m: TunnelMessage)
    requires Inv(s) && Exists(s, c)
    ensures Inv(ReaderStep(s, c, ok, m))
  {
    ReaderLeavesTheRest(s, c, ok, m);
    OthersKeepInv(s, ReaderStep(s, c, ok, m));
  }

  lemma WriterKeepsInv(s: State, c: nat, ok: bool)
    requires Inv(s) && Exists(s, c)
    ensures Inv(WriterStep(s, c, ok))
  {
    if WriterMove(s, c, ok).Go? {
      OthersKeepInv(s, WriterStep(s, c, ok));
    }
  }

  lemma SweepKeepsInv(s: State, c: nat)
    requires Inv(s) && Exists(s, c)
    ensures Inv(Apply(s, c, CloseCon(c)))
  {
    OthersKeepInv(s, Apply(s, c, CloseCon(c)));
  }

  lemma StepKeepsInv(s: State, turn: Turn)
    requires Inv(s)
    ensures Inv(Step(s, turn))
  {
    if !s.crashed {
      match turn
      case Arrive(key) => ArriveKeepsInv(s, key);
      case MainOf(c, ok) => if Exists(s, c) { MainKeepsInv(s, c, ok); }
      case ReaderOf(c, ok, m) => if Exists(s, c) { ReaderKeepsInv(s, c, ok, m); }
      case WriterOf(c, ok) => if Exists(s, c) { WriterKeepsInv(s, c, ok); }
      case Sweep(c) => if Exists(s, c) { SweepKeepsInv(s, c); }
    }
  }

  lemma {:induction false} RunKeepsInv(s: State, turns: seq<Turn>)
    requires Inv(s)
    ensures Inv(Run(s, turns))
    decreases |turns|
  {
    if turns != [] {
      StepKeepsInv(s, turns[0]);
      RunKeepsInv(Step(s, turns[0]), turns[1..]);
    }
  }

  // ---------------------------------------------------------------------------
  //  Pairing
  // ---------------------------------------------------------------------------

  /** Whenever no locked section is under way, after any run of connects, replacements,
      disconnects and sweeps: two registered peers of a tunnel point at each other, and a lone one
      points at the nil writer. */
  lemma PairedOutsideLockedSections(turns: seq<Turn>, k: Key)
    requires Run(INIT, turns).holder.None? && k in Run(INIT, turns).peerConMap
    ensures var s := Run(INIT, turns);
            var c := s.peerConMap[k];
            && c < |s.keys| && c < |s.assoc| && s.keys[c] == k
            && (OtherKey(k) in s.peerConMap ==>
                  var d := s.peerConMap[OtherKey(k)];
                  d < |s.assoc| && s.assoc[c] == Peer(d) && s.assoc[d] == Peer(c))
            && (OtherKey(k) !in s.peerConMap ==> s.assoc[c] == Nobody)
  {
    InvInit();
    RunKeepsInv(INIT, turns);
    OtherOfOther(k);
    var s := Run(INIT, turns);
    assert PairedAt(k, s.peerConMap, s.assoc);
    if OtherKey(k) in s.peerConMap {
      assert PairedAt(OtherKey(k), s.peerConMap, s.assoc);
    }
  }

  /** At every moment, inside locked sections too, every connection that ever came in, replaced and
      gone ones among them, points at the nil writer or at a connection of the same tunnel and the
      opposite mode; and nobody attempted to close it twice. */
  lemma OnlyOppositePeers(turns: seq<Turn>, c: nat)
    requires c < |Run(INIT, turns).keys|
    ensures var s := Run(INIT, turns);
            && c < |s.assoc| && c < |s.closes|
            && (s.assoc[c].Peer? ==>
                  var d := s.assoc[c].c;
                  && d < |s.keys| && d != c
                  && s.keys[d].tunnelID == s.keys[c].tunnelID
                  && s.keys[d].mode == OtherMode(s.keys[c].mode) && s.keys[d].mode != s.keys[c].mode)
            && s.closes[c] <= 1
  {
    InvInit();
    RunKeepsInv(INIT, turns);
    OtherOfOther(Run(INIT, turns).keys[c]);
  }
}
