/** client/worker.go and client/workermanager.go as objects. Each method is one call as its caller
    sees it; what it does to a worker is said with the actions of the pipeline, so that the objects
    and the transition system speak of the same thing. */
module Workers {
  import opened Protobuf
  import P = Pipeline

  class Worker {
    const bufSize: nat
    var chExec: seq<P.Job>
    var chCancel: P.Token
    var cancelled: bool
    var terminated: bool
    ghost var cancels: nat
    ghost var enqueued: seq<P.Job>
    ghost var done: seq<P.Job>

    /** Between two calls nobody is in the middle of Stop. */
    ghost predicate Valid()
      reads this
    {
      && !chCancel.Taken?
      && (cancelled <==> chCancel.Closed?)
      && (terminated <==> cancelled)
      && cancels == (if cancelled then 1 else 0)
      && |chExec| <= bufSize
      && enqueued == done + chExec
    }

    ghost function Value(): P.Worker
      reads this
    {
      P.Worker(chExec, chCancel, cancelled, cancels, enqueued, done)
    }

    /** NewWorker and Start: the cancel function is put into chCancel. */
    constructor (bufSize: nat)
      ensures Valid() && !terminated
      ensures this.bufSize == bufSize && Value() == P.FRESH_WORKER
    {
      this.bufSize := bufSize;
      chExec := [];
      chCancel := P.Full;
      cancelled := false;
      terminated := false;
      cancels := 0;
      enqueued := [];
      done := [];
    }

    /** The send on chExec; it does not return while the channel is full, which `sent` reports. */
    method Exec(job: P.Job) returns (sent: bool)
      requires Valid()
      modifies this
      ensures Valid() && terminated == old(terminated)
      ensures sent <==> |old(chExec)| < bufSize
      ensures Value() == if sent then P.WorkerAfter(old(Value()), P.Enqueue(0, job)) else old(Value())
    {
      if |chExec| < bufSize {
        chExec := chExec + [job];
        enqueued := enqueued + [job];
        return true;
      }
      return false;
    }

    /** The goroutine once its context is done: select may still prefer jobs to the context, any
        number of times, before it returns. */
    method Drain()
      requires chCancel.Closed? && cancelled && cancels == 1 && enqueued == done + chExec && |chExec| <= bufSize
      modifies this
      ensures Valid() && terminated && cancelled
      ensures cancels == old(cancels) && enqueued == old(enqueued)
      ensures old(done) <= done
    {
      while chExec != []
        invariant chCancel == old(chCancel) && cancelled && cancels == old(cancels)
        invariant enqueued == old(enqueued) && enqueued == done + chExec && |chExec| <= bufSize
        invariant old(done) <= done
        decreases |chExec|
      {
        if * {
          break;
        }
        var fnc := chExec[0];
        chExec := chExec[1..];
        done := done + [fnc];
      }
      terminated := true;
    }

    /** The first call cancels and waits for the goroutine to end; every other call does nothing. */
    method Stop()
      requires Valid()
      modifies this
      ensures Valid() && terminated && cancels == 1
      ensures enqueued == old(enqueued) && old(done) <= done
      ensures old(terminated) ==> Value() == old(Value())
    {
      if chCancel.Closed? {
        return;
      }
      chCancel := P.Taken;
      chCancel := P.Closed;
      cancelled := true;
      cancels := cancels + 1;
      Drain();
    }
  }

  class WorkerManager {
    const bufSize: nat
    var workerMap: map<int32, Worker>

    ghost predicate Valid()
      reads this, workerMap.Values
    {
      && (forall id :: id in workerMap ==> workerMap[id].Valid() && workerMap[id].bufSize == bufSize)
      && (forall i, j :: i in workerMap && j in workerMap && i != j ==> workerMap[i] != workerMap[j])
    }

    ghost function View(): map<int32, P.Worker>
      reads this, workerMap.Values
    {
      map id | id in workerMap :: workerMap[id].Value()
    }

    constructor (bufSize: nat)
      ensures Valid() && workerMap == map[] && this.bufSize == bufSize
    {
      this.bufSize := bufSize;
      workerMap := map[];
    }

    /** A worker that is there under the id is left running and forgotten. */
    method Start(streamID: int32) returns (worker: Worker)
      requires Valid()
      modifies this
      ensures Valid() && fresh(worker)
      ensures workerMap == old(workerMap)[streamID := worker] && !worker.terminated
      ensures View() == old(View())[streamID := P.FRESH_WORKER]
    {
      worker := new Worker(bufSize);
      workerMap := workerMap[streamID := worker];
    }

    /** Returns whether there is a worker for the id; `sent` is false while the call would block. */
    method Exec(streamID: int32, job: P.Job) returns (found: bool, sent: bool)
      requires Valid()
      modifies workerMap.Values
      ensures Valid() && workerMap == old(workerMap)
      ensures found <==> streamID in workerMap
      ensures sent ==> found
      ensures found && !sent ==> |old(workerMap[streamID].chExec)| == bufSize
      ensures View() == if sent
                        then old(View())[streamID := P.WorkerAfter(old(workerMap[streamID].Value()), P.Enqueue(0, job))]
                        else old(View())
    {
      if streamID in workerMap {
        var worker := workerMap[streamID];
        sent := worker.Exec(job);
        return true, sent;
      }
      return false, false;
    }

    /** The body of the goroutine of stop, from lock to unlock. */
    method Stop(streamID: int32)
      requires Valid()
      modifies this, workerMap.Values
      ensures Valid()
      ensures workerMap == old(workerMap) - {streamID}
      ensures View() == old(View()) - {streamID}
      ensures streamID in old(workerMap) ==> old(workerMap)[streamID].terminated
    {
      if streamID in workerMap {
        var worker := workerMap[streamID];
        worker.Stop();
        workerMap := workerMap - {streamID};
      }
    }

    method GetAll() returns (workers: seq<Worker>)
      requires Valid()
      ensures forall w :: w in workers <==> w in workerMap.Values
      ensures forall i, j :: 0 <= i < j < |workers| ==> workers[i] != workers[j]
    {
      workers := [];
      var rest := workerMap.Keys;
      while rest != {}
        invariant rest <= workerMap.Keys
        invariant forall w :: w in workers <==> exists id :: id in workerMap && id !in rest && workerMap[id] == w
        invariant forall i, j :: 0 <= i < j < |workers| ==> workers[i] != workers[j]
        decreases rest
      {
        var id :| id in rest;
        assert workerMap[id] !in workers;
        workers := workers + [workerMap[id]];
        rest := rest - {id};
      }
    }

    /** Every registered worker ends, and stays registered. */
    method StopAll()
      requires Valid()
      modifies workerMap.Values
      ensures Valid() && workerMap == old(workerMap)
      ensures forall id :: id in workerMap ==> workerMap[id].terminated
      ensures forall id :: id in workerMap ==> workerMap[id].enqueued == old(workerMap[id].enqueued)
    {
      var workers := GetAll();
      for i := 0 to |workers|
        invariant Valid() && workerMap == old(workerMap)
        invariant forall j :: 0 <= j < i ==> workers[j].terminated
        invariant forall id :: id in workerMap ==> workerMap[id].enqueued == old(workerMap[id].enqueued)
      {
        assert workers[i] in workerMap.Values;
        workers[i].Stop();
      }
      assert forall id :: id in workerMap ==> workerMap[id] in workers;
    }
  }

  // ---------------------------------------------------------------------------
  //  The objects and the transition system
  // ---------------------------------------------------------------------------

  /** The manager as the pipeline has it. */
  ghost function ViewOf(s: P.State): map<int32, P.Worker> {
    map id | id in s.workerMap && s.workerMap[id] < |s.workers| :: s.workers[s.workerMap[id]]
  }

  ghost predicate MapOk(s: P.State) {
    && |s.workers| == |s.workerIds|
    && forall id :: id in s.workerMap ==> s.workerMap[id] < |s.workers| && s.workerIds[s.workerMap[id]] == id
  }

  /** What Stop does to the view of the manager is what the last action of a stopper does to it. */
  lemma StopMatches(s: P.State, t: P.Tid, id: int32)
    requires MapOk(s)
    ensures ViewOf(P.Apply(s, t, P.UnlockWm(id))) == ViewOf(s) - {id}
  {
  }
}
