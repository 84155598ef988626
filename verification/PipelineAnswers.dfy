/** What becomes of the DATA messages that a worker is given: each is taken by the local socket of its stream,
    or answered with a STREAM_RESET. */
module PipelineAnswers {
  import opened Pipeline
  import opened PipelineInvariants
  import opened PipelineProofs
  import opened PipelineResets
  import PipelineStops

  /** How many payloads of the worker a local socket has taken. */
  function Taken(writes: seq<Write>, w: nat): nat {
    if writes == [] then 0
    else
      var last := writes[|writes| - 1];
      Taken(writes[..|writes| - 1], w) + if last.writer == WorkerOf(w) && last.ok then 1 else 0
  }

  /** How many messages the worker has sent, or tried to send. */
  function Answers(sends: seq<Sent>, w: nat): nat {
    if sends == [] then 0
    else Answers(sends[..|sends| - 1], w) + if sends[|sends| - 1].sender == WorkerOf(w) then 1 else 0
  }

  function DataJobs(jobs: seq<Job>): nat {
    if jobs == [] then 0 else DataJobs(jobs[..|jobs| - 1]) + if jobs[|jobs| - 1].DataJob? then 1 else 0
  }

  /** The DATA jobs that are over, counting one that is about to return. */
  function DataJobsOver(worker: Worker, pc: WorkerPc): nat {
    DataJobs(worker.done) + if pc.WFinish? && pc.job.DataJob? then 1 else 0
  }

  ghost predicate Balanced(s: State, w: nat) {
    && w < |s.workers| && w < |s.workerPc|
    && Taken(s.writes, w) + Answers(s.sends, w) == DataJobsOver(s.workers[w], s.workerPc[w])
  }

  ghost predicate AllBalanced(s: State) {
    && (forall w :: 0 <= w < |s.workers| ==> Balanced(s, w))
    && (forall w :: w >= |s.workers| ==> Taken(s.writes, w) == Answers(s.sends, w) == 0)
  }

  // ---------------------------------------------------------------------------
  //  Steps
  // ---------------------------------------------------------------------------

  function TakenBy(a: Act, t: Tid, w: nat): nat {
    if a.Hand? && a.ok && t == WorkerOf(w) then 1 else 0
  }

  function AnswersBy(a: Act, w: nat): nat {
    if a.DropMutex? && a.sent.sender == WorkerOf(w) then 1 else 0
  }

  lemma StepCounts(env: Env, s: State, t: Tid, c: Choice, w: nat)
    ensures var n, a := Step(env, s, t, c), ActionOf(env, s, t, c);
            && Taken(n.writes, w) == Taken(s.writes, w) + TakenBy(a, t, w)
            && Answers(n.sends, w) == Answers(s.sends, w) + AnswersBy(a, w)
  {
    StepActs(env, s, t, c);
    var n := Step(env, s, t, c);
    assert n.writes != s.writes ==> n.writes[..|s.writes|] == s.writes;
    assert n.sends != s.sends ==> n.sends[..|s.sends|] == s.sends;
  }

  /** One move of a worker: a DATA job that comes to its end has been taken or answered just then. */
  lemma MoveBalances(env: Env, s: State, w: nat, c: Choice)
    requires w < |s.workers| && w < |s.workerPc| && w < |s.workerIds|
    ensures var n, a := WorkerStep(s, w, c), ActionOf(env, s, WorkerOf(w), c);
            && w < |n.workerPc|
            && TakenBy(a, WorkerOf(w), w) + AnswersBy(a, w)
               == (if !s.workerPc[w].WFinish? && n.workerPc[w].WFinish? && n.workerPc[w].job.DataJob? then 1 else 0)
  {
  }

  lemma OwnStepBalances(env: Env, s: State, w: nat, c: Choice)
    requires w < |s.workers| && w < |s.workerPc| && w < |s.workerIds| && Balanced(s, w)
    ensures Balanced(WorkerStep(s, w, c), w)
  {
    var n := WorkerStep(s, w, c);
    StepCounts(env, s, WorkerOf(w), c, w);
    MoveBalances(env, s, w, c);
    WorkerEdge(s, w, c);
    if s.workerPc[w].WFinish? {
      WorkerReturns(s, w, c);
      assert n.workers[w].done[..|s.workers[w].done|] == s.workers[w].done;
    }
  }

  lemma OthersDoNotCount(env: Env, s: State, t: Tid, c: Choice, w: nat)
    requires t != WorkerOf(w)
    ensures var a := ActionOf(env, s, t, c); TakenBy(a, t, w) == 0 && AnswersBy(a, w) == 0
  {
    PipelineStops.StepSends(env, s, t, c);
  }

  lemma OtherStepBalances(env: Env, s: State, t: Tid, c: Choice, w: nat)
    requires SameLengths(s) && w < |s.workers| && t != WorkerOf(w) && Balanced(s, w)
    ensures Balanced(Step(env, s, t, c), w)
  {
    StepCounts(env, s, t, c, w);
    OthersDoNotCount(env, s, t, c, w);
    OthersOnlyEnqueue(env, s, t, c, w);
    StepLeavesOtherPcs(env, s, t, c, w);
  }

  lemma NoneYet(env: Env, s: State, t: Tid, c: Choice, w: nat)
    requires SameLengths(s) && AllBalanced(s) && w >= |s.workers|
    ensures var n := Step(env, s, t, c); Taken(n.writes, w) == Answers(n.sends, w) == 0
  {
    StepCounts(env, s, t, c, w);
    if t != WorkerOf(w) {
      OthersDoNotCount(env, s, t, c, w);
    }
  }

  lemma StepBalances(env: Env, s: State, t: Tid, c: Choice)
    requires SameLengths(s) && SameLengths(Step(env, s, t, c)) && AllBalanced(s)
    ensures AllBalanced(Step(env, s, t, c))
  {
    var n := Step(env, s, t, c);
    StepKeepsIds(env, s, t, c);
    forall w | 0 <= w < |n.workers| ensures Balanced(n, w) {
      if w >= |s.workers| {
        NoneYet(env, s, t, c, w);
        NewWorkersAreFresh(env, s, t, c, w);
      } else if t == WorkerOf(w) {
        OwnStepBalances(env, s, w, c);
      } else {
        OtherStepBalances(env, s, t, c, w);
      }
    }
    forall w: nat | w >= |n.workers| ensures Taken(n.writes, w) == Answers(n.sends, w) == 0 {
      NoneYet(env, s, t, c, w);
    }
  }

  lemma {:induction false} RunBalances(env: Env, s: State, schedule: seq<(Tid, Choice)>)
    requires Inv(s) && AllBalanced(s)
    ensures AllBalanced(Run(env, s, schedule))
    decreases |schedule|
  {
    if schedule != [] {
      StepKeepsInv(env, s, schedule[0].0, schedule[0].1);
      StepBalances(env, s, schedule[0].0, schedule[0].1);
      RunBalances(env, Step(env, s, schedule[0].0, schedule[0].1), schedule[1..]);
    }
  }

  /** In every reachable state, in either mode: of the DATA jobs that are over for a worker, each was taken
      by a local socket or answered by the worker with a STREAM_RESET, and none both. */
  lemma DataIsTakenOrAnswered(env: Env, schedule: seq<(Tid, Choice)>, w: nat)
    requires w < |Run(env, INIT, schedule).workers|
    ensures var s := Run(env, INIT, schedule);
            && w < |s.workerPc|
            && Taken(s.writes, w) + Answers(s.sends, w) == DataJobsOver(s.workers[w], s.workerPc[w])
  {
    InvInit();
    RunBalances(env, INIT, schedule);
    assert Balanced(Run(env, INIT, schedule), w);
  }
}
