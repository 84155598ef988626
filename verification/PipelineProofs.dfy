/** Every step of every thread keeps the invariant of the pipeline, so every run does. */
module PipelineProofs {
  import opened Basics
  import opened Pipeline
  import opened PipelineInvariants

  // ---------------------------------------------------------------------------
  //  What does not change is kept
  // ---------------------------------------------------------------------------

  lemma RefsOfSame(s: State, n: State)
    requires WmOk(s) && RefsOk(s)
    requires n.read == s.read && n.session == s.session && n.wmHolder == s.wmHolder && s.stoppers <= n.stoppers
    requires |n.workers| == |s.workers| && n.workerIds == s.workerIds && n.workerMap == s.workerMap
    ensures RefsOk(n)
  {
  }

  /** New workers hold no lock. */
  lemma SmLockOfSame(s: State, n: State)
    requires SmOk(s) && n.smHolder == s.smHolder && n.read == s.read && n.session == s.session
    requires s.workerPc <= n.workerPc && forall w :: |s.workerPc| <= w < |n.workerPc| ==> n.workerPc[w].WSelect?
    ensures SmOk(n)
  {
    forall t ensures HoldsSm(t, n.read, n.session, n.workerPc) <==> n.smHolder == Some(t) {
      assert HoldsSm(t, s.read, s.session, s.workerPc) <==> s.smHolder == Some(t);
    }
  }

  /** The mutex has stayed with its holder, or one thread has taken or dropped it. */
  lemma MutexOfOne(s: State, n: State, me: Tid)
    requires MutexOk(s)
    requires forall t :: t != me ==>
               (HoldsMutex(t, n.read, n.workerPc, n.socketPc, n.acceptors)
                <==> HoldsMutex(t, s.read, s.workerPc, s.socketPc, s.acceptors))
    requires HoldsMutex(me, n.read, n.workerPc, n.socketPc, n.acceptors) <==> n.mutex == Some(me)
    requires n.mutex == s.mutex || (s.mutex.None? && n.mutex == Some(me)) || (s.mutex == Some(me) && n.mutex.None?)
    ensures MutexOk(n)
  {
    forall t ensures HoldsMutex(t, n.read, n.workerPc, n.socketPc, n.acceptors) <==> n.mutex == Some(t) {
      assert HoldsMutex(t, s.read, s.workerPc, s.socketPc, s.acceptors) <==> s.mutex == Some(t);
    }
  }

  // ---------------------------------------------------------------------------
  //  Steps of the read loop
  // ---------------------------------------------------------------------------

  lemma ReadKeepsWmLock(env: Env, s: State, c: Choice)
    requires WmOk(s)
    ensures var n := ReadStep(env, s, c); WmOk(n)
  {
  }

  lemma ReadStaysInLine(env: Env, s: State, c: Choice)
    requires SmOk(s)
    ensures var n := ReadStep(env, s, c);
            && (HoldsSm(ReadLoop, n.read, n.session, n.workerPc) <==> n.smHolder == Some(ReadLoop))
            && (n.smHolder == s.smHolder || (s.smHolder.None? && n.smHolder == Some(ReadLoop))
                || (s.smHolder == Some(ReadLoop) && n.smHolder.None?))
  {
    assert HoldsSm(ReadLoop, s.read, s.session, s.workerPc) <==> s.smHolder == Some(ReadLoop);
  }

  lemma ReadLeavesWorkerPcs(env: Env, s: State, c: Choice)
    ensures var n := ReadStep(env, s, c);
            && n.session == s.session && s.workerPc <= n.workerPc
            && forall w :: |s.workerPc| <= w < |n.workerPc| ==> n.workerPc[w].WSelect?
  {
  }

  lemma ReadKeepsSmLock(env: Env, s: State, c: Choice)
    requires SmOk(s)
    ensures SmOk(ReadStep(env, s, c))
  {
    var n := ReadStep(env, s, c);
    ReadStaysInLine(env, s, c);
    ReadLeavesWorkerPcs(env, s, c);
    forall t ensures HoldsSm(t, n.read, n.session, n.workerPc) <==> n.smHolder == Some(t) {
      assert HoldsSm(t, s.read, s.session, s.workerPc) <==> s.smHolder == Some(t);
    }
  }

  lemma ReadKeepsMutex(env: Env, s: State, c: Choice)
    requires MutexOk(s)
    ensures var n := ReadStep(env, s, c); MutexOk(n)
  {
    var n := ReadStep(env, s, c);
    forall t ensures HoldsMutex(t, n.read, n.workerPc, n.socketPc, n.acceptors) <==> n.mutex == Some(t) {
      assert HoldsMutex(t, s.read, s.workerPc, s.socketPc, s.acceptors) <==> s.mutex == Some(t);
      assert HoldsMutex(ReadLoop, s.read, s.workerPc, s.socketPc, s.acceptors) <==> s.mutex == Some(ReadLoop);
    }
  }

  lemma ReadKeepsItsRefs(env: Env, s: State, c: Choice)
    requires WmOk(s) && Registry(s.workerIds, s.workerMap) && ReadRefs(s.read, s.workerIds, s.workerMap)
    ensures var n := ReadStep(env, s, c); ReadRefs(n.read, n.workerIds, n.workerMap)
  {
  }

  /** A worker is started only while nobody holds the lock. */
  lemma ReadLeavesManager(env: Env, s: State, c: Choice)
    ensures var n := ReadStep(env, s, c);
            && n.session == s.session && n.wmHolder == s.wmHolder && s.stoppers <= n.stoppers
            && |s.workers| <= |n.workers| && (s.read.RDone? ==> n.read.RDone?)
            && (s.wmHolder.Some? ==> n.workerIds == s.workerIds && n.workerMap == s.workerMap)
  {
  }

  lemma ReadKeepsRefs(env: Env, s: State, c: Choice)
    requires WmOk(s) && MapsOk(s) && RefsOk(s)
    ensures RefsOk(ReadStep(env, s, c))
  {
    ReadKeepsItsRefs(env, s, c);
    ReadLeavesManager(env, s, c);
  }

  lemma ReadKeepsLive(env: Env, s: State, c: Choice)
    requires MapsOk(s) && SmOk(s) && WaitOk(s) && LiveOk(s)
    ensures LiveOk(ReadStep(env, s, c))
  {
    assert HoldsSm(ReadLoop, s.read, s.session, s.workerPc) <==> s.smHolder == Some(ReadLoop);
  }

  lemma ReadKeepsClosed(env: Env, s: State, c: Choice)
    requires MapsOk(s) && ClosedOk(s)
    ensures ClosedOk(ReadStep(env, s, c))
  {
  }

  lemma ReadOnlyAppends(env: Env, s: State, c: Choice)
    ensures var n := ReadStep(env, s, c);
            && n.session == s.session
            && s.workerIds <= n.workerIds && s.workerPc <= n.workerPc && s.socketIds <= n.socketIds
            && (forall w :: |s.workerPc| <= w < |n.workerPc| ==> n.workerPc[w].WSelect?)
  {
  }

  /** The read loop changes the map of sockets only with the lock that it holds, or when it is free. */
  lemma ReadResetsAll(env: Env, s: State, c: Choice)
    ensures var n := ReadStep(env, s, c);
            && (n.smHolder == s.smHolder || n.read.RAllPick? || s.read.RAllPick?)
            && (s.read.RAllWait? || s.smHolder.None? || (n.socketMap == s.socketMap && n.socketIds == s.socketIds))
  {
  }

  /** It begins to wait for a reader that the map names. */
  lemma ReadWaitsForNamed(env: Env, s: State, c: Choice)
    ensures var n := ReadStep(env, s, c);
            && (n.read.RAllWait? ==> n.socketMap == s.socketMap)
            && (n.read.RAllWait? && !s.read.RAllWait? ==>
                  n.read.id in s.socketMap && n.read.k == s.socketMap[n.read.id])
            && (n.read.RAllWait? && s.read.RAllWait? ==> n.read == s.read)
  {
  }

  lemma ReadKeepsWait(env: Env, s: State, c: Choice)
    requires MapsOk(s) && SmOk(s) && WaitOk(s)
    ensures WaitOk(ReadStep(env, s, c))
  {
    ReadOnlyAppends(env, s, c);
    ReadResetsAll(env, s, c);
    ReadWaitsForNamed(env, s, c);
    assert HoldsSm(ReadLoop, s.read, s.session, s.workerPc) <==> s.smHolder == Some(ReadLoop);
  }

  lemma ReadKeepsWrite(env: Env, s: State, c: Choice)
    requires MapsOk(s) && WriteOk(s)
    ensures WriteOk(ReadStep(env, s, c))
  {
  }

  lemma ReadKeepsWaits(env: Env, s: State, c: Choice)
    requires MapsOk(s) && SmOk(s) && WaitOk(s) && WriteOk(s)
    ensures var n := ReadStep(env, s, c); WaitOk(n) && WriteOk(n)
  {
    ReadKeepsWait(env, s, c);
    ReadKeepsWrite(env, s, c);
  }

  // ---------------------------------------------------------------------------
  //  Steps of the session
  // ---------------------------------------------------------------------------

  lemma SessionKeepsLocks(s: State, c: Choice)
    requires WmOk(s) && MutexOk(s)
    ensures var n := SessionStep(s, c); WmOk(n) && MutexOk(n)
  {
    var n := SessionStep(s, c);
    forall t ensures HoldsMutex(t, n.read, n.workerPc, n.socketPc, n.acceptors) <==> n.mutex == Some(t) {
      assert HoldsMutex(t, s.read, s.workerPc, s.socketPc, s.acceptors) <==> s.mutex == Some(t);
      assert HoldsMutex(Session, s.read, s.workerPc, s.socketPc, s.acceptors) <==> s.mutex == Some(Session);
    }
  }

  lemma SessionKeepsSmLock(s: State, c: Choice)
    requires SmOk(s)
    ensures var n := SessionStep(s, c); SmOk(n)
  {
    var n := SessionStep(s, c);
    forall t ensures HoldsSm(t, n.read, n.session, n.workerPc) <==> n.smHolder == Some(t) {
      assert HoldsSm(t, s.read, s.session, s.workerPc) <==> s.smHolder == Some(t);
      assert HoldsSm(Session, s.read, s.session, s.workerPc) <==> s.smHolder == Some(Session);
    }
  }

  lemma SessionKeepsItsRefs(s: State, c: Choice)
    requires SameLengths(s) && Registry(s.workerIds, s.workerMap) && SessionRefs(s.session, |s.workers|)
    requires SessionAfterRead(s.session, s.read)
    ensures var n := SessionStep(s, c); SessionRefs(n.session, |s.workers|) && SessionAfterRead(n.session, s.read)
  {
  }

  lemma SessionLeavesManager(s: State, c: Choice)
    ensures var n := SessionStep(s, c);
            && n.read == s.read && n.wmHolder == s.wmHolder && n.stoppers == s.stoppers
            && |n.workers| == |s.workers| && n.workerIds == s.workerIds && n.workerMap == s.workerMap
  {
  }

  lemma SessionKeepsRefs(s: State, c: Choice)
    requires MapsOk(s) && RefsOk(s)
    ensures RefsOk(SessionStep(s, c))
  {
    SessionKeepsItsRefs(s, c);
    SessionLeavesManager(s, c);
  }

  lemma SessionKeepsLive(s: State, c: Choice)
    requires MapsOk(s) && SmOk(s) && WaitOk(s) && LiveOk(s)
    ensures LiveOk(SessionStep(s, c))
  {
    assert HoldsSm(Session, s.read, s.session, s.workerPc) <==> s.smHolder == Some(Session);
  }

  lemma SessionKeepsClosed(s: State, c: Choice)
    requires MapsOk(s) && ClosedOk(s) && WriteOk(s)
    ensures ClosedOk(SessionStep(s, c)) && WriteOk(SessionStep(s, c))
  {
  }

  lemma SessionResetsAll(s: State, c: Choice)
    ensures var n := SessionStep(s, c);
            && n.read == s.read && n.workerIds == s.workerIds && n.workerPc == s.workerPc && n.socketIds == s.socketIds
            && (n.smHolder == s.smHolder || n.session.MSockPick? || s.session.MSockPick?)
            && (s.session.MSockWait? || n.socketMap == s.socketMap)
            && (n.session.MSockWait? ==> n.socketMap == s.socketMap)
            && (n.session.MSockWait? && !s.session.MSockWait? ==>
                  n.session.id in s.socketMap && n.session.k == s.socketMap[n.session.id])
            && (n.session.MSockWait? && s.session.MSockWait? ==> n.session == s.session)
  {
  }

  lemma SessionKeepsWaits(s: State, c: Choice)
    requires MapsOk(s) && SmOk(s) && WaitOk(s)
    ensures WaitOk(SessionStep(s, c))
  {
    SessionResetsAll(s, c);
    assert HoldsSm(Session, s.read, s.session, s.workerPc) <==> s.smHolder == Some(Session);
  }

  // ---------------------------------------------------------------------------
  //  Steps of a worker
  // ---------------------------------------------------------------------------

  lemma WorkerKeepsWmLock(s: State, w: nat, c: Choice)
    requires WmOk(s)
    ensures var n := WorkerStep(s, w, c); WmOk(n)
  {
  }

  lemma WorkerLeavesIds(s: State, w: nat, c: Choice)
    ensures var n := WorkerStep(s, w, c);
            && n.read == s.read && n.session == s.session && n.workerIds == s.workerIds
            && n.socketIds == s.socketIds && |n.workerPc| == |s.workerPc|
            && (forall v :: 0 <= v < |s.workerPc| && v != w ==> n.workerPc[v] == s.workerPc[v])
  {
  }

  lemma WorkerHoldsInside(s: State, w: nat, c: Choice)
    requires HoldsSm(WorkerOf(w), s.read, s.session, s.workerPc) == (s.smHolder == Some(WorkerOf(w)))
    ensures var n := WorkerStep(s, w, c);
            HoldsSm(WorkerOf(w), n.read, n.session, n.workerPc) == (n.smHolder == Some(WorkerOf(w)))
  {
  }

  lemma WorkerStaysInLine(s: State, w: nat, c: Choice)
    requires HoldsSm(WorkerOf(w), s.read, s.session, s.workerPc) == (s.smHolder == Some(WorkerOf(w)))
    ensures var n := WorkerStep(s, w, c);
            || n.smHolder == s.smHolder
            || (s.smHolder == None && n.smHolder == Some(WorkerOf(w)))
            || (s.smHolder == Some(WorkerOf(w)) && n.smHolder == None)
  {
  }

  lemma WorkerKeepsSmLock(s: State, w: nat, c: Choice)
    requires SmOk(s)
    ensures var n := WorkerStep(s, w, c); SmOk(n)
  {
    var n := WorkerStep(s, w, c);
    WorkerHoldsInside(s, w, c);
    WorkerStaysInLine(s, w, c);
    WorkerLeavesIds(s, w, c);
    forall t ensures HoldsSm(t, n.read, n.session, n.workerPc) <==> n.smHolder == Some(t) {
      assert HoldsSm(t, s.read, s.session, s.workerPc) <==> s.smHolder == Some(t);
    }
  }

  lemma WorkerTakesTurns(s: State, w: nat, c: Choice)
    requires MutexOk(s)
    ensures var n := WorkerStep(s, w, c);
            && (HoldsMutex(WorkerOf(w), n.read, n.workerPc, n.socketPc, n.acceptors) <==> n.mutex == Some(WorkerOf(w)))
            && (n.mutex == s.mutex || (s.mutex.None? && n.mutex == Some(WorkerOf(w)))
                || (s.mutex == Some(WorkerOf(w)) && n.mutex.None?))
            && n.read == s.read && n.socketPc == s.socketPc && n.acceptors == s.acceptors
            && |n.workerPc| == |s.workerPc|
            && forall v :: 0 <= v < |s.workerPc| && v != w ==> n.workerPc[v] == s.workerPc[v]
  {
    assert HoldsMutex(WorkerOf(w), s.read, s.workerPc, s.socketPc, s.acceptors) <==> s.mutex == Some(WorkerOf(w));
  }

  lemma WorkerKeepsMutex(s: State, w: nat, c: Choice)
    requires MutexOk(s)
    ensures MutexOk(WorkerStep(s, w, c))
  {
    WorkerTakesTurns(s, w, c);
    MutexOfOne(s, WorkerStep(s, w, c), WorkerOf(w));
  }

  lemma WorkerLeavesManager(s: State, w: nat, c: Choice)
    ensures var n := WorkerStep(s, w, c);
            && n.read == s.read && n.session == s.session && n.wmHolder == s.wmHolder && s.stoppers <= n.stoppers
            && |n.workers| == |s.workers| && n.workerIds == s.workerIds && n.workerMap == s.workerMap
  {
  }

  lemma WorkerKeepsRefs(s: State, w: nat, c: Choice)
    requires WmOk(s) && RefsOk(s)
    ensures RefsOk(WorkerStep(s, w, c))
  {
    WorkerLeavesManager(s, w, c);
    RefsOfSame(s, WorkerStep(s, w, c));
  }

  lemma WorkerKeepsLive(s: State, w: nat, c: Choice)
    requires MapsOk(s) && SmOk(s) && WaitOk(s) && LiveOk(s)
    ensures LiveOk(WorkerStep(s, w, c))
  {
    assert HoldsSm(WorkerOf(w), s.read, s.session, s.workerPc) <==> s.smHolder == Some(WorkerOf(w));
    WorkerUnregistersEnded(s, w, c);
  }

  /** A worker takes a socket out of the map only when its reader has ended. */
  lemma WorkerUnregistersEnded(s: State, w: nat, c: Choice)
    requires Registry(s.socketIds, s.socketMap)
    requires w < |s.workerPc| && w < |s.workerIds| && s.workerPc[w].WResetWait? ==>
               Names(s.socketMap, s.socketIds, s.workerIds[w], s.workerPc[w].k)
    ensures var n := WorkerStep(s, w, c);
            && n.socketIds == s.socketIds && n.socketPc == s.socketPc
            && forall id :: id in s.socketMap ==>
                 (id in n.socketMap && n.socketMap[id] == s.socketMap[id])
                 || (s.socketMap[id] < |s.socketPc| && s.socketPc[s.socketMap[id]].SDone?)
  {
  }

  lemma WorkerKeepsClosed(s: State, w: nat, c: Choice)
    requires MapsOk(s) && ClosedOk(s)
    ensures ClosedOk(WorkerStep(s, w, c))
  {
  }

  /** A worker changes the map only while it waits for the reader of its stream to end, and begins to
      wait for the one it finds there. */
  lemma WorkerResetsItsOwn(s: State, w: nat, c: Choice)
    requires w < |s.workers| && w < |s.workerPc| && w < |s.workerIds| && WorkerMove(s, w, c).Go?
    ensures var n, id := WorkerStep(s, w, c), s.workerIds[w];
            && n.workerIds == s.workerIds && n.socketIds == s.socketIds && w < |n.workerPc|
            && (n.socketMap == s.socketMap || (s.workerPc[w].WResetWait? && n.workerPc[w].WResetUnlock?))
            && (n.workerPc[w].WResetWait? ==> id in s.socketMap && n.workerPc[w].k == s.socketMap[id])
  {
  }

  lemma WorkerKeepsWaits(s: State, w: nat, c: Choice)
    requires MapsOk(s) && SmOk(s) && WaitOk(s)
    ensures var n := WorkerStep(s, w, c); WaitOk(n)
  {
    if w < |s.workers| && WorkerMove(s, w, c).Go? {
      WorkerHoldsInside(s, w, c);
      WorkerStaysInLine(s, w, c);
      WorkerLeavesIds(s, w, c);
      WorkerResetsItsOwn(s, w, c);
      assert HoldsSm(WorkerOf(w), s.read, s.session, s.workerPc) <==> s.smHolder == Some(WorkerOf(w));
    }
  }

  lemma WorkerFindsItsSocket(s: State, w: nat, c: Choice)
    requires w < |s.workers| && w < |s.workerIds| && w < |s.workerPc|
    ensures var n := WorkerStep(s, w, c);
            w < |n.workerPc| && n.workerPc[w].WWrite? ==>
              s.workerIds[w] in s.socketMap && n.workerPc[w].k == s.socketMap[s.workerIds[w]]
  {
  }

  lemma WorkerKeepsWrites(s: State, w: nat, c: Choice)
    requires MapsOk(s) && WriteOk(s)
    ensures WriteOk(WorkerStep(s, w, c))
  {
    WorkerLeavesIds(s, w, c);
    if w < |s.workers| {
      WorkerFindsItsSocket(s, w, c);
    }
  }

  // ---------------------------------------------------------------------------
  //  Steps of a socket reader
  // ---------------------------------------------------------------------------

  lemma SocketLeavesTheRest(s: State, k: nat, c: Choice)
    ensures var n := SocketStep(s, k, c);
            && n.read == s.read && n.session == s.session && n.workerPc == s.workerPc && n.acceptors == s.acceptors
            && |n.workers| == |s.workers| && n.workerIds == s.workerIds && n.workerMap == s.workerMap
            && n.wmHolder == s.wmHolder && n.smHolder == s.smHolder && s.stoppers <= n.stoppers
            && (forall i :: |s.stoppers| <= i < |n.stoppers| ==> n.stoppers[i].PWant?)
  {
  }

  lemma SocketTakesTurns(s: State, k: nat, c: Choice)
    requires MutexOk(s)
    ensures var n := SocketStep(s, k, c);
            && (HoldsMutex(SocketOf(k), n.read, n.workerPc, n.socketPc, n.acceptors) <==> n.mutex == Some(SocketOf(k)))
            && (n.mutex == s.mutex || (s.mutex.None? && n.mutex == Some(SocketOf(k)))
                || (s.mutex == Some(SocketOf(k)) && n.mutex.None?))
            && |n.socketPc| == |s.socketPc|
            && forall v :: 0 <= v < |s.socketPc| && v != k ==> n.socketPc[v] == s.socketPc[v]
  {
    assert HoldsMutex(SocketOf(k), s.read, s.workerPc, s.socketPc, s.acceptors) <==> s.mutex == Some(SocketOf(k));
  }

  lemma SocketKeepsLocks(s: State, k: nat, c: Choice)
    requires WmOk(s) && SmOk(s) && MutexOk(s)
    ensures var n := SocketStep(s, k, c); WmOk(n) && SmOk(n) && MutexOk(n)
  {
    SocketLeavesTheRest(s, k, c);
    SocketTakesTurns(s, k, c);
    SmLockOfSame(s, SocketStep(s, k, c));
    MutexOfOne(s, SocketStep(s, k, c), SocketOf(k));
  }

  lemma SocketKeepsRefs(s: State, k: nat, c: Choice)
    requires WmOk(s) && RefsOk(s)
    ensures RefsOk(SocketStep(s, k, c))
  {
    SocketLeavesTheRest(s, k, c);
    RefsOfSame(s, SocketStep(s, k, c));
  }

  lemma SocketKeepsLive(s: State, k: nat, c: Choice)
    requires MapsOk(s) && SmOk(s) && WaitOk(s) && LiveOk(s)
    ensures var n := SocketStep(s, k, c); LiveOk(n)
  {
    assert HoldsSm(SocketOf(k), s.read, s.session, s.workerPc) <==> s.smHolder == Some(SocketOf(k));
  }

  lemma SocketKeepsClosed(s: State, k: nat, c: Choice)
    requires MapsOk(s) && ClosedOk(s) && WriteOk(s)
    ensures var n := SocketStep(s, k, c); ClosedOk(n) && WriteOk(n)
  {
  }

  lemma SocketKeepsWaits(s: State, k: nat, c: Choice)
    requires MapsOk(s) && SmOk(s) && WaitOk(s)
    ensures var n := SocketStep(s, k, c); WaitOk(n)
  {
    assert HoldsSm(SocketOf(k), s.read, s.session, s.workerPc) <==> s.smHolder == Some(SocketOf(k));
  }

  // ---------------------------------------------------------------------------
  //  Steps of a stopper
  // ---------------------------------------------------------------------------

  lemma StopperLeavesTheRest(s: State, i: nat)
    ensures var n := StopperStep(s, i);
            && n.read == s.read && n.session == s.session && n.workerPc == s.workerPc && n.acceptors == s.acceptors
            && |n.workers| == |s.workers| && n.workerIds == s.workerIds
            && n.smHolder == s.smHolder && n.mutex == s.mutex
            && n.sockets == s.sockets && n.socketIds == s.socketIds
            && n.socketPc == s.socketPc && n.socketMap == s.socketMap
  {
  }

  lemma StopperKeepsWmLock(s: State, i: nat)
    requires WmOk(s)
    ensures WmOk(StopperStep(s, i))
  {
  }

  lemma StopperKeepsLocks(s: State, i: nat)
    requires WmOk(s) && SmOk(s) && MutexOk(s)
    ensures var n := StopperStep(s, i); WmOk(n) && SmOk(n) && MutexOk(n)
  {
    StopperKeepsWmLock(s, i);
    StopperLeavesTheRest(s, i);
  }

  lemma LockTakerRefersToTheMap(s: State, i: nat)
    requires Registry(s.workerIds, s.workerMap) && i < |s.stoppers| && !HoldsWm(s.stoppers[i])
    requires StopperRefs(s.wmHolder, s.stoppers, s.workerIds, s.workerMap)
    ensures var n := StopperStep(s, i); StopperRefs(n.wmHolder, n.stoppers, n.workerIds, n.workerMap)
  {
  }

  /** A stopper deletes only what it refers to, and then refers to nothing. */
  lemma LockHolderKeepsItsRefs(s: State, i: nat)
    requires s.wmHolder == Some(i) && i < |s.stoppers| && HoldsWm(s.stoppers[i])
    requires StopperRefs(s.wmHolder, s.stoppers, s.workerIds, s.workerMap)
    ensures var n := StopperStep(s, i); StopperRefs(n.wmHolder, n.stoppers, n.workerIds, n.workerMap)
  {
  }

  lemma StopperKeepsItsRefs(s: State, i: nat)
    requires WmOk(s) && Registry(s.workerIds, s.workerMap)
    requires StopperRefs(s.wmHolder, s.stoppers, s.workerIds, s.workerMap)
    ensures var n := StopperStep(s, i); StopperRefs(n.wmHolder, n.stoppers, n.workerIds, n.workerMap)
  {
    if i < |s.stoppers| {
      if HoldsWm(s.stoppers[i]) {
        LockHolderKeepsItsRefs(s, i);
      } else {
        LockTakerRefersToTheMap(s, i);
      }
    }
  }

  /** The read loop is not inside exec when the lock is held. */
  lemma StopperKeepsReadRefs(s: State, i: nat)
    requires WmOk(s) && ReadRefs(s.read, s.workerIds, s.workerMap)
    ensures var n := StopperStep(s, i); ReadRefs(n.read, n.workerIds, n.workerMap)
  {
  }

  lemma StopperKeepsRefs(s: State, i: nat)
    requires WmOk(s) && MapsOk(s) && RefsOk(s)
    ensures RefsOk(StopperStep(s, i))
  {
    StopperKeepsItsRefs(s, i);
    StopperKeepsReadRefs(s, i);
    StopperLeavesTheRest(s, i);
  }

  lemma StopperKeepsSockets(s: State, i: nat)
    requires LiveOk(s) && ClosedOk(s) && WaitOk(s) && WriteOk(s)
    ensures var n := StopperStep(s, i); LiveOk(n) && ClosedOk(n) && WaitOk(n) && WriteOk(n)
  {
    StopperLeavesTheRest(s, i);
  }

  // ---------------------------------------------------------------------------
  //  Steps of an acceptor
  // ---------------------------------------------------------------------------

  lemma AcceptorLeavesTheRest(env: Env, s: State, i: nat, c: Choice)
    ensures var n := AcceptorStep(env, s, i, c);
            && n.read == s.read && n.session == s.session && n.wmHolder == s.wmHolder && n.smHolder == s.smHolder
            && s.stoppers <= n.stoppers && (forall j :: |s.stoppers| <= j < |n.stoppers| ==> n.stoppers[j].PWant?)
            && s.workerPc <= n.workerPc && (forall w :: |s.workerPc| <= w < |n.workerPc| ==> n.workerPc[w].WSelect?)
            && s.socketPc <= n.socketPc && (forall k :: |s.socketPc| <= k < |n.socketPc| ==> n.socketPc[k].SRead?)
  {
  }

  lemma AcceptorTakesTurns(env: Env, s: State, i: nat, c: Choice)
    requires MutexOk(s)
    ensures var n := AcceptorStep(env, s, i, c);
            && (HoldsMutex(AcceptorOf(i), n.read, n.workerPc, n.socketPc, n.acceptors)
                <==> n.mutex == Some(AcceptorOf(i)))
            && (n.mutex == s.mutex || (s.mutex.None? && n.mutex == Some(AcceptorOf(i)))
                || (s.mutex == Some(AcceptorOf(i)) && n.mutex.None?))
            && |s.acceptors| <= |n.acceptors| <= |s.acceptors| + (if i == |s.acceptors| then 1 else 0)
            && forall j :: 0 <= j < |s.acceptors| && j != i ==> n.acceptors[j] == s.acceptors[j]
  {
    assert HoldsMutex(AcceptorOf(i), s.read, s.workerPc, s.socketPc, s.acceptors) <==> s.mutex == Some(AcceptorOf(i));
  }

  lemma AcceptorKeepsLocks(env: Env, s: State, i: nat, c: Choice)
    requires WmOk(s) && SmOk(s) && MutexOk(s)
    ensures var n := AcceptorStep(env, s, i, c); WmOk(n) && SmOk(n) && MutexOk(n)
  {
    AcceptorLeavesTheRest(env, s, i, c);
    AcceptorTakesTurns(env, s, i, c);
    SmLockOfSame(s, AcceptorStep(env, s, i, c));
    MutexOfOne(s, AcceptorStep(env, s, i, c), AcceptorOf(i));
  }

  /** A worker is started only while nobody holds the lock and the read loop is not inside exec. */
  lemma AcceptorLeavesManager(env: Env, s: State, i: nat, c: Choice)
    ensures var n := AcceptorStep(env, s, i, c);
            && |s.workers| <= |n.workers|
            && (s.wmHolder.Some? || s.read.RExec? ==> n.workerIds == s.workerIds && n.workerMap == s.workerMap)
  {
  }

  lemma AcceptorKeepsRefs(env: Env, s: State, i: nat, c: Choice)
    requires WmOk(s) && MapsOk(s) && RefsOk(s)
    ensures RefsOk(AcceptorStep(env, s, i, c))
  {
    AcceptorLeavesTheRest(env, s, i, c);
    AcceptorLeavesManager(env, s, i, c);
  }

  lemma AcceptorKeepsLive(env: Env, s: State, i: nat, c: Choice)
    requires MapsOk(s) && LiveOk(s)
    ensures LiveOk(AcceptorStep(env, s, i, c))
  {
  }

  lemma AcceptorKeepsClosed(env: Env, s: State, i: nat, c: Choice)
    requires MapsOk(s) && ClosedOk(s)
    ensures ClosedOk(AcceptorStep(env, s, i, c))
  {
  }

  lemma AcceptorKeepsWaits(env: Env, s: State, i: nat, c: Choice)
    requires MapsOk(s) && SmOk(s) && WaitOk(s) && WriteOk(s)
    ensures var n := AcceptorStep(env, s, i, c); WaitOk(n) && WriteOk(n)
  {
    assert HoldsSm(AcceptorOf(i), s.read, s.session, s.workerPc) <==> s.smHolder == Some(AcceptorOf(i));
  }

  // ---------------------------------------------------------------------------
  //  Registries
  // ---------------------------------------------------------------------------

  /** Whatever the action, the two maps go on naming the newest worker and socket of each id. */
  lemma ApplyKeepsMaps(s: State, t: Tid, a: Act)
    requires MapsOk(s)
    ensures MapsOk(Apply(s, t, a))
  {
  }

  // ---------------------------------------------------------------------------
  //  Ledgers
  // ---------------------------------------------------------------------------

  /** A job that leaves the buffer is running, and one that stops running has been executed. */
  lemma TakeKeepsLedger(worker: Worker, w: nat)
    requires LedgerOf(worker, WSelect) && worker.chExec != []
    ensures LedgerOf(WorkerAfter(worker, Dequeue(w)), FirstPc(worker.chExec[0]))
  {
    assert worker.chExec == [worker.chExec[0]] + worker.chExec[1..];
  }

  lemma WorkerMoveKeepsLedger(s: State, w: nat, c: Choice)
    requires w < |s.workers| && w < |s.workerPc| && w < |s.workerIds|
    requires LedgerOf(s.workers[w], s.workerPc[w])
    ensures match WorkerMove(s, w, c)
            case Stuck => true
            case Go(pc, a) => LedgerOf(WorkerAfter(s.workers[w], a), pc) && (OnWorker(a) ==> a.w == w)
  {
    if s.workerPc[w].WSelect? {
      if s.workers[w].chExec != [] {
        TakeKeepsLedger(s.workers[w], w);
      }
    } else {
      WorkingKeepsLedger(s, w, c);
    }
  }

  lemma WorkingKeepsLedger(s: State, w: nat, c: Choice)
    requires w < |s.workers| && w < |s.workerPc| && w < |s.workerIds| && !s.workerPc[w].WSelect?
    requires LedgerOf(s.workers[w], s.workerPc[w])
    ensures match WorkerMove(s, w, c)
            case Stuck => true
            case Go(pc, a) => LedgerOf(WorkerAfter(s.workers[w], a), pc) && (OnWorker(a) ==> a.w == w)
  {
  }

  /** Every thread but a worker leaves the ledgers alone, or adds a job where there is room. */
  lemma ApplyKeepsLedger(s: State, t: Tid, a: Act)
    requires MapsOk(s) && LedgerOk(s)
    requires !a.Dequeue? && !a.Complete?
    requires a.Enqueue? ==> a.w < |s.workers| && |s.workers[a.w].chExec| < BUF_SIZE
    ensures LedgerOk(Apply(s, t, a))
  {
    var n := Apply(s, t, a);
    forall v | 0 <= v < |n.workers| && v < |n.workerPc| ensures LedgerOf(n.workers[v], n.workerPc[v]) {
      assert v < |s.workers| ==> LedgerOf(s.workers[v], s.workerPc[v]);
    }
  }

  lemma WorkerKeepsLedger(s: State, w: nat, c: Choice)
    requires MapsOk(s) && LedgerOk(s)
    ensures LedgerOk(WorkerStep(s, w, c))
  {
    var n := WorkerStep(s, w, c);
    if w < |s.workers| && WorkerMove(s, w, c).Go? {
      WorkerMoveKeepsLedger(s, w, c);
      assert n.workers[w] == WorkerAfter(s.workers[w], WorkerMove(s, w, c).act);
      forall v | 0 <= v < |s.workers| && v != w ensures LedgerOf(n.workers[v], n.workerPc[v]) {
        assert LedgerOf(s.workers[v], s.workerPc[v]);
      }
    }
  }

  // ---------------------------------------------------------------------------
  //  Tokens
  // ---------------------------------------------------------------------------

  predicate SameToken(x: Worker, y: Worker) {
    x.token == y.token && x.cancelled == y.cancelled && x.cancels == y.cancels
  }

  /** What a thread that stops nothing can do to the workers. */
  ghost predicate WorkersKept(s: State, n: State) {
    && n.panicked == s.panicked
    && Stopping(n.wmHolder, n.stoppers) == Stopping(s.wmHolder, s.stoppers)
    && |s.workers| <= |n.workers| && SameLengths(n)
    && (forall v :: 0 <= v < |s.workers| && v < |n.workers| ==> SameToken(s.workers[v], n.workers[v]))
    && (forall v :: 0 <= v < |s.workerPc| && v < |n.workerPc| && n.workerPc[v].WDone? ==>
          s.workerPc[v].WDone? || (v < |s.workers| && s.workers[v].cancelled))
    && (forall v :: 0 <= v < |s.workerPc| && v < |n.workerPc| && s.workerPc[v].WDone? ==> n.workerPc[v].WDone?)
    && (forall v :: 0 <= v < |s.workers| && Registered(v, n.workerIds, n.workerMap) ==>
          Registered(v, s.workerIds, s.workerMap))
    && (forall v :: |s.workers| <= v < |n.workers| ==> n.workers[v] == FRESH_WORKER)
    && (forall v :: |s.workers| <= v < |n.workerPc| ==> n.workerPc[v].WSelect?)
  }

  predicate SessionActsOn(pc: SessionPc, w: nat) {
    (pc.MClose? || pc.MCancel? || pc.MWait?) && pc.w == w
  }

  /** The session stays where it is, or moves without being at work on any worker. */
  predicate Calm(session: SessionPc, next: SessionPc) {
    || session == next
    || (&& !session.MClose? && !session.MCancel? && !session.MWait?
        && !next.MClose? && !next.MCancel? && !next.MWait?
        && (next.MReading? || next.MGetAll? ==> session.MReading? || session.MGetAll?))
  }

  lemma TokensKept(s: State, n: State)
    requires MapsOk(s) && WmOk(s) && RefsOk(s) && TokensOk(s)
    requires WorkersKept(s, n) && Calm(s.session, n.session)
    ensures TokensOk(n)
  {
  }

  lemma ApplyKeepsWorkers(s: State, t: Tid, a: Act)
    requires MapsOk(s) && WmOk(s)
    requires !a.Drain? && !a.CloseChannel? && !a.Cancel? && !a.LockWm? && !a.UnlockWm?
    ensures WorkersKept(s, Apply(s, t, a))
  {
  }

  lemma ReadKeepsTokens(env: Env, s: State, c: Choice)
    requires MapsOk(s) && WmOk(s) && RefsOk(s) && TokensOk(s)
    ensures TokensOk(ReadStep(env, s, c))
  {
    if ReadMove(env, s, c).Go? {
      ApplyKeepsWorkers(s, ReadLoop, ReadMove(env, s, c).act);
      TokensKept(s, ReadStep(env, s, c));
    }
  }

  lemma WorkerLeavesOthers(s: State, w: nat, c: Choice)
    requires SameLengths(s)
    ensures var n := WorkerStep(s, w, c);
            && SameLengths(n) && n.panicked == s.panicked
            && (forall v :: 0 <= v < |s.workers| && v != w ==>
                  n.workers[v] == s.workers[v] && n.workerPc[v] == s.workerPc[v])
  {
  }

  /** A worker ends only when it has been cancelled. */
  lemma WorkerEndsCancelled(s: State, w: nat, c: Choice)
    requires SameLengths(s) && w < |s.workers|
    ensures var n := WorkerStep(s, w, c);
            && w < |n.workers| && w < |n.workerPc| && SameToken(s.workers[w], n.workers[w])
            && if n.workerPc[w].WDone? then s.workerPc[w].WDone? || s.workers[w].cancelled else !s.workerPc[w].WDone?
  {
  }

  lemma WorkerKeepsWorkers(s: State, w: nat, c: Choice)
    requires MapsOk(s) && WmOk(s)
    ensures WorkersKept(s, WorkerStep(s, w, c))
  {
    WorkerLeavesManager(s, w, c);
    WorkerLeavesOthers(s, w, c);
    if w < |s.workers| {
      WorkerEndsCancelled(s, w, c);
    }
  }

  lemma WorkerKeepsTokens(s: State, w: nat, c: Choice)
    requires MapsOk(s) && WmOk(s) && RefsOk(s) && TokensOk(s)
    ensures TokensOk(WorkerStep(s, w, c))
  {
    WorkerKeepsWorkers(s, w, c);
    WorkerLeavesManager(s, w, c);
    TokensKept(s, WorkerStep(s, w, c));
  }

  lemma SocketKeepsTokens(s: State, k: nat, c: Choice)
    requires MapsOk(s) && WmOk(s) && RefsOk(s) && TokensOk(s)
    ensures TokensOk(SocketStep(s, k, c))
  {
    if k < |s.sockets| && SocketMove(s, k, c).Go? {
      ApplyKeepsWorkers(s, SocketOf(k), SocketMove(s, k, c).act);
      TokensKept(s, SocketStep(s, k, c));
    }
  }

  lemma AcceptorKeepsTokens(env: Env, s: State, i: nat, c: Choice)
    requires MapsOk(s) && WmOk(s) && RefsOk(s) && TokensOk(s)
    ensures TokensOk(AcceptorStep(env, s, i, c))
  {
    if i < |s.acceptors| && AcceptorMove(s, i, c).Go? {
      ApplyKeepsWorkers(s, AcceptorOf(i), AcceptorMove(s, i, c).act);
      TokensKept(s, AcceptorStep(env, s, i, c));
    } else {
      TokensKept(s, AcceptorStep(env, s, i, c));
    }
  }

  /** One worker under the invariant of tokens. */
  predicate TokenAt(s: State, v: nat) {
    && v < |s.workers| && v < |s.workerPc|
    && TokenOf(v, s.workers[v], s.workerPc[v].WDone?, Registered(v, s.workerIds, s.workerMap),
               s.session, Stopping(s.wmHolder, s.stoppers))
  }

  /** The stopper that holds the lock takes its worker one stage further down. */
  lemma StopperMoveKeepsToken(s: State, i: nat)
    requires i < |s.stoppers| && HoldsWm(s.stoppers[i])
    requires s.stoppers[i].w < |s.workers| && s.stoppers[i].w < |s.workerPc|
    requires var w := s.stoppers[i].w;
             TokenOf(w, s.workers[w], s.workerPc[w].WDone?, true, s.session, s.stoppers[i])
    ensures var w := s.stoppers[i].w;
            match StopperMove(s, i)
            case Stuck => true
            case Go(pc, a) =>
              && TokenOf(w, WorkerAfter(s.workers[w], a), s.workerPc[w].WDone?, !pc.PDone?, s.session, pc)
              && (OnWorker(a) ==> a.w == w)
              && (a.CloseChannel? ==> !s.workers[w].token.Closed?)
              && (pc.PDone? <==> a == UnlockWm(s.stoppers[i].id))
              && (!pc.PDone? ==> HoldsWm(pc) && pc.w == w)
  {
  }

  lemma LockHolderKeepsItsToken(s: State, i: nat)
    requires SameLengths(s) && s.wmHolder == Some(i)
    requires i < |s.stoppers| && HoldsWm(s.stoppers[i])
    requires Names(s.workerMap, s.workerIds, s.stoppers[i].id, s.stoppers[i].w)
    requires TokenAt(s, s.stoppers[i].w)
    ensures TokenAt(StopperStep(s, i), s.stoppers[i].w)
    ensures StopperStep(s, i).panicked == s.panicked
  {
    StopperMoveKeepsToken(s, i);
  }

  lemma LockHolderKeepsToken(s: State, i: nat, v: nat)
    requires SameLengths(s) && s.wmHolder == Some(i)
    requires i < |s.stoppers| && HoldsWm(s.stoppers[i])
    requires Names(s.workerMap, s.workerIds, s.stoppers[i].id, s.stoppers[i].w)
    requires TokenAt(s, v)
    ensures TokenAt(StopperStep(s, i), v)
  {
    if v == s.stoppers[i].w {
      LockHolderKeepsItsToken(s, i);
    } else {
      LockHolderLeavesOthers(s, i, v);
      LockHolderLeavesRegistered(s, i, v);
    }
  }

  lemma LockHolderLeavesOthers(s: State, i: nat, v: nat)
    requires SameLengths(s) && s.wmHolder == Some(i)
    requires i < |s.stoppers| && HoldsWm(s.stoppers[i])
    requires v < |s.workers| && v != s.stoppers[i].w
    ensures var n := StopperStep(s, i);
            var next := Stopping(n.wmHolder, n.stoppers);
            && n.workers[v] == s.workers[v] && n.workerPc == s.workerPc && n.session == s.session
            && (HoldsWm(next) ==> next.w == s.stoppers[i].w) && !next.PWant?
  {
  }

  lemma LockHolderLeavesRegistered(s: State, i: nat, v: nat)
    requires i < |s.stoppers| && HoldsWm(s.stoppers[i]) && v != s.stoppers[i].w
    requires Names(s.workerMap, s.workerIds, s.stoppers[i].id, s.stoppers[i].w)
    ensures var n := StopperStep(s, i);
            Registered(v, n.workerIds, n.workerMap) <==> Registered(v, s.workerIds, s.workerMap)
  {
  }

  lemma AllTokens(s: State)
    requires !s.panicked && forall v :: 0 <= v < |s.workers| ==> TokenAt(s, v)
    ensures TokensOk(s)
  {
    forall v | 0 <= v < |s.workers| && v < |s.workerPc|
      ensures TokenOf(v, s.workers[v], s.workerPc[v].WDone?, Registered(v, s.workerIds, s.workerMap),
                      s.session, Stopping(s.wmHolder, s.stoppers))
    {
      assert TokenAt(s, v);
    }
  }

  lemma LockHolderKeepsTokens(s: State, i: nat)
    requires SameLengths(s) && WmOk(s) && Registry(s.workerIds, s.workerMap) && TokensOk(s)
    requires i < |s.stoppers| && HoldsWm(s.stoppers[i])
    requires StopperRefs(s.wmHolder, s.stoppers, s.workerIds, s.workerMap)
    ensures TokensOk(StopperStep(s, i))
  {
    var n, w := StopperStep(s, i), s.stoppers[i].w;
    StopperLeavesTheRest(s, i);
    assert TokenAt(s, w);
    LockHolderKeepsItsToken(s, i);
    forall v | 0 <= v < |n.workers| ensures TokenAt(n, v) {
      assert TokenAt(s, v);
      LockHolderKeepsToken(s, i, v);
    }
    AllTokens(n);
  }

  /** A stopper that takes the lock, or finds nothing to stop. */
  lemma LockTakerLeavesTokens(s: State, i: nat)
    requires WmOk(s) && i < |s.stoppers| && !HoldsWm(s.stoppers[i])
    ensures var n := StopperStep(s, i);
            && n.workers == s.workers && n.workerPc == s.workerPc && n.session == s.session
            && n.workerIds == s.workerIds && n.workerMap == s.workerMap && n.panicked == s.panicked
            && var stopping, next := Stopping(s.wmHolder, s.stoppers), Stopping(n.wmHolder, n.stoppers);
               next == stopping || (stopping.PDone? && (next.PRecv? || next.PDone? || next.PWant?))
  {
  }

  lemma LockTakerKeepsTokens(s: State, i: nat)
    requires WmOk(s) && TokensOk(s) && i < |s.stoppers| && !HoldsWm(s.stoppers[i])
    ensures TokensOk(StopperStep(s, i))
  {
    LockTakerLeavesTokens(s, i);
  }

  lemma StopperKeepsTokens(s: State, i: nat)
    requires MapsOk(s) && WmOk(s) && RefsOk(s) && TokensOk(s)
    ensures TokensOk(StopperStep(s, i))
  {
    if i < |s.stoppers| {
      if HoldsWm(s.stoppers[i]) {
        LockHolderKeepsTokens(s, i);
      } else {
        LockTakerKeepsTokens(s, i);
      }
    }
  }

  /** stopAll does with each worker what a stopper does, without the lock. */
  lemma SessionMoveKeepsToken(s: State, c: Choice, w: nat)
    requires w < |s.workers| && TokenAt(s, w)
    requires SessionActsOn(s.session, w) || (s.session.MRecv? && s.session.w == w)
    ensures match SessionMove(s, c)
            case Stuck => true
            case Go(pc, a) =>
              && TokenOf(w, WorkerAfter(s.workers[w], a), s.workerPc[w].WDone?,
                         Registered(w, s.workerIds, s.workerMap), pc, Stopping(s.wmHolder, s.stoppers))
              && (OnWorker(a) ==> a.w == w)
              && (a.CloseChannel? ==> !s.workers[w].token.Closed?)
              && (SessionActsOn(pc, w) || pc.MStop?)
  {
  }

  lemma OtherTokens(v: nat, worker: Worker, done: bool, registered: bool,
                    session: SessionPc, next: SessionPc, stopping: StopPc)
    requires TokenOf(v, worker, done, registered, session, stopping)
    requires !SessionActsOn(session, v) && !SessionActsOn(next, v)
    requires next.MReading? || next.MGetAll? ==> session.MReading? || session.MGetAll?
    ensures TokenOf(v, worker, done, registered, next, stopping)
  {
  }

  lemma SessionActsKeepsToken(s: State, c: Choice, v: nat)
    requires SameLengths(s) && SessionRefs(s.session, |s.workers|) && TokenAt(s, v) && SessionMove(s, c).Go?
    requires s.session.MRecv? || s.session.MClose? || s.session.MCancel? || s.session.MWait?
    requires v != s.session.w ==> TokenAt(s, s.session.w)
    ensures TokenAt(SessionStep(s, c), v)
    ensures v == s.session.w ==> SessionStep(s, c).panicked == s.panicked
  {
    SessionMoveKeepsToken(s, c, s.session.w);
    if v != s.session.w {
      OtherTokens(v, s.workers[v], s.workerPc[v].WDone?, Registered(v, s.workerIds, s.workerMap),
                  s.session, SessionStep(s, c).session, Stopping(s.wmHolder, s.stoppers));
    }
  }

  lemma SessionActsKeepsTokens(s: State, c: Choice)
    requires SameLengths(s) && SessionRefs(s.session, |s.workers|) && TokensOk(s)
    requires s.session.MRecv? || s.session.MClose? || s.session.MCancel? || s.session.MWait?
    ensures TokensOk(SessionStep(s, c))
  {
    if SessionMove(s, c).Go? {
      var n := SessionStep(s, c);
      assert TokenAt(s, s.session.w);
      SessionActsKeepsToken(s, c, s.session.w);
      forall v | 0 <= v < |n.workers| ensures TokenAt(n, v) {
        assert TokenAt(s, v);
        SessionActsKeepsToken(s, c, v);
      }
    }
  }

  lemma SessionIdleKeepsTokens(s: State, c: Choice)
    requires MapsOk(s) && WmOk(s) && RefsOk(s) && TokensOk(s)
    requires !(s.session.MRecv? || s.session.MClose? || s.session.MCancel? || s.session.MWait?)
    ensures TokensOk(SessionStep(s, c))
  {
    if SessionMove(s, c).Go? {
      ApplyKeepsWorkers(s, Session, SessionMove(s, c).act);
      TokensKept(s, SessionStep(s, c));
    }
  }

  lemma SessionKeepsTokens(s: State, c: Choice)
    requires MapsOk(s) && WmOk(s) && RefsOk(s) && TokensOk(s)
    ensures TokensOk(SessionStep(s, c))
  {
    if s.session.MRecv? || s.session.MClose? || s.session.MCancel? || s.session.MWait? {
      SessionActsKeepsTokens(s, c);
    } else {
      SessionIdleKeepsTokens(s, c);
    }
  }

  // ---------------------------------------------------------------------------
  //  All together
  // ---------------------------------------------------------------------------

  lemma ReadKeepsStores(env: Env, s: State, c: Choice)
    requires MapsOk(s) && LedgerOk(s)
    ensures MapsOk(ReadStep(env, s, c)) && LedgerOk(ReadStep(env, s, c))
  {
    if ReadMove(env, s, c).Go? {
      ApplyKeepsMaps(s, ReadLoop, ReadMove(env, s, c).act);
      ApplyKeepsLedger(s, ReadLoop, ReadMove(env, s, c).act);
    }
  }

  lemma ReadKeepsInv(env: Env, s: State, c: Choice)
    requires Inv(s)
    ensures Inv(ReadStep(env, s, c))
  {
    ReadKeepsWmLock(env, s, c);
    ReadKeepsSmLock(env, s, c);
    ReadKeepsMutex(env, s, c);
    ReadKeepsRefs(env, s, c);
    ReadKeepsLive(env, s, c);
    ReadKeepsClosed(env, s, c);
    ReadKeepsWaits(env, s, c);
    ReadKeepsTokens(env, s, c);
    ReadKeepsStores(env, s, c);
  }

  lemma SessionKeepsStores(s: State, c: Choice)
    requires MapsOk(s) && LedgerOk(s)
    ensures MapsOk(SessionStep(s, c)) && LedgerOk(SessionStep(s, c))
  {
    if SessionMove(s, c).Go? {
      ApplyKeepsMaps(s, Session, SessionMove(s, c).act);
      ApplyKeepsLedger(s, Session, SessionMove(s, c).act);
    }
  }

  lemma SessionKeepsInv(s: State, c: Choice)
    requires Inv(s)
    ensures Inv(SessionStep(s, c))
  {
    SessionKeepsLocks(s, c);
    SessionKeepsSmLock(s, c);
    SessionKeepsRefs(s, c);
    SessionKeepsLive(s, c);
    SessionKeepsClosed(s, c);
    SessionKeepsWaits(s, c);
    SessionKeepsTokens(s, c);
    SessionKeepsStores(s, c);
  }

  lemma WorkerKeepsMaps(s: State, w: nat, c: Choice)
    requires MapsOk(s)
    ensures MapsOk(WorkerStep(s, w, c))
  {
    if w < |s.workers| && WorkerMove(s, w, c).Go? {
      ApplyKeepsMaps(s, WorkerOf(w), WorkerMove(s, w, c).act);
    }
  }

  lemma WorkerKeepsInv(s: State, w: nat, c: Choice)
    requires Inv(s)
    ensures Inv(WorkerStep(s, w, c))
  {
    WorkerKeepsWmLock(s, w, c);
    WorkerKeepsSmLock(s, w, c);
    WorkerKeepsMutex(s, w, c);
    WorkerKeepsRefs(s, w, c);
    WorkerKeepsLive(s, w, c);
    WorkerKeepsClosed(s, w, c);
    WorkerKeepsWaits(s, w, c);
    WorkerKeepsWrites(s, w, c);
    WorkerKeepsTokens(s, w, c);
    WorkerKeepsLedger(s, w, c);
    WorkerKeepsMaps(s, w, c);
  }

  lemma SocketKeepsStores(s: State, k: nat, c: Choice)
    requires MapsOk(s) && LedgerOk(s)
    ensures MapsOk(SocketStep(s, k, c)) && LedgerOk(SocketStep(s, k, c))
  {
    if k < |s.sockets| && SocketMove(s, k, c).Go? {
      ApplyKeepsMaps(s, SocketOf(k), SocketMove(s, k, c).act);
      ApplyKeepsLedger(s, SocketOf(k), SocketMove(s, k, c).act);
    }
  }

  lemma SocketKeepsInv(s: State, k: nat, c: Choice)
    requires Inv(s)
    ensures Inv(SocketStep(s, k, c))
  {
    SocketKeepsLocks(s, k, c);
    SocketKeepsRefs(s, k, c);
    SocketKeepsLive(s, k, c);
    SocketKeepsClosed(s, k, c);
    SocketKeepsWaits(s, k, c);
    SocketKeepsTokens(s, k, c);
    SocketKeepsStores(s, k, c);
  }

  lemma StopperKeepsStores(s: State, i: nat)
    requires MapsOk(s) && LedgerOk(s)
    ensures MapsOk(StopperStep(s, i)) && LedgerOk(StopperStep(s, i))
  {
    if i < |s.stoppers| && StopperMove(s, i).Go? {
      ApplyKeepsMaps(s, StopperOf(i), StopperMove(s, i).act);
      ApplyKeepsLedger(s, StopperOf(i), StopperMove(s, i).act);
    }
  }

  lemma StopperKeepsInv(s: State, i: nat)
    requires Inv(s)
    ensures Inv(StopperStep(s, i))
  {
    StopperKeepsLocks(s, i);
    StopperKeepsRefs(s, i);
    StopperKeepsSockets(s, i);
    StopperKeepsTokens(s, i);
    StopperKeepsStores(s, i);
  }

  lemma AcceptorKeepsStores(env: Env, s: State, i: nat, c: Choice)
    requires MapsOk(s) && LedgerOk(s)
    ensures MapsOk(AcceptorStep(env, s, i, c)) && LedgerOk(AcceptorStep(env, s, i, c))
  {
    if i < |s.acceptors| && AcceptorMove(s, i, c).Go? {
      ApplyKeepsMaps(s, AcceptorOf(i), AcceptorMove(s, i, c).act);
      ApplyKeepsLedger(s, AcceptorOf(i), AcceptorMove(s, i, c).act);
    }
  }

  lemma AcceptorKeepsInv(env: Env, s: State, i: nat, c: Choice)
    requires Inv(s)
    ensures Inv(AcceptorStep(env, s, i, c))
  {
    AcceptorKeepsLocks(env, s, i, c);
    AcceptorKeepsRefs(env, s, i, c);
    AcceptorKeepsLive(env, s, i, c);
    AcceptorKeepsClosed(env, s, i, c);
    AcceptorKeepsWaits(env, s, i, c);
    AcceptorKeepsTokens(env, s, i, c);
    AcceptorKeepsStores(env, s, i, c);
  }

  lemma StepKeepsInv(env: Env, s: State, t: Tid, c: Choice)
    requires Inv(s)
    ensures Inv(Step(env, s, t, c))
  {
    match t
    case ReadLoop => ReadKeepsInv(env, s, c);
    case Session => SessionKeepsInv(s, c);
    case WorkerOf(w) => WorkerKeepsInv(s, w, c);
    case SocketOf(k) => SocketKeepsInv(s, k, c);
    case StopperOf(i) => StopperKeepsInv(s, i);
    case AcceptorOf(i) => AcceptorKeepsInv(env, s, i, c);
  }

  /** Every reachable state satisfies the invariant: for every input, in either mode, under every
      schedule. */
  lemma {:induction false} RunKeepsInv(env: Env, s: State, schedule: seq<(Tid, Choice)>)
    requires Inv(s)
    ensures Inv(Run(env, s, schedule))
    decreases |schedule|
  {
    if schedule != [] {
      StepKeepsInv(env, s, schedule[0].0, schedule[0].1);
      RunKeepsInv(env, Step(env, s, schedule[0].0, schedule[0].1), schedule[1..]);
    }
  }
}
