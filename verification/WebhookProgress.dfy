/** Every job ends. A job can be moved on exactly while it is unfinished, and over any run it is moved
    at most 59 times, plus seven times for every worker that died with it. */
module WebhookProgress {
  import opened GoText
  import opened WebhookProtocol
  import opened WebhookInvariant
  import opened WebhookSteps
  import opened WebhookTheorems
  import opened WebhookEndings
  import opened Runs
  import opened Sums

  /** How many steps of a run move job j, deaths of its worker included. */
  function Moves(s: State, actions: seq<Action>, j: JobId): nat
    decreases |actions|
  {
    if actions == [] then 0
    else
      var n := |actions| - 1;
      Moves(s, actions[..n], j) + (if Drives(Run(Step, s, actions[..n]), actions[n], j) then 1 else 0)
  }

  // ---------- one step ----------

  lemma LossesAfter(s: State, w: nat, v: Verdict, j: JobId)
    requires Busy(s, w) && j in s.jobs
    ensures var s' := Decided(s, w, v);
            j in s'.jobs && s'.jobs[j].losses == s.jobs[j].losses + (if s.workers[w].job == j && v == Vanish then 1 else 0)
  {
  }

  /** Only a death of its worker counts as a loss of the job. */
  lemma StepLosses(s: State, a: Action, j: JobId)
    requires j in s.jobs
    ensures var s' := Step(s, a);
            j in s'.jobs && s'.jobs[j].losses == s.jobs[j].losses + (if Drives(s, a, j) && Dies(a) then 1 else 0)
  {
    if a.Work? && Busy(s, a.w) {
      WrittenLeaves(s, a.w, a.answer);
      VerdictRanks(s, a.w, a.answer);
      LossesAfter(Written(s, a.w, a.answer), a.w, VerdictOf(s, a.w, a.answer), j);
    } else if a.Die? && Busy(s, a.w) {
      LossesAfter(s, a.w, Vanish, j);
    } else if !a.Take? {
      QuietWrites(s, a, j);
    }
  }

  /** A death puts the job back to waiting, which is at most six further from its end. */
  lemma DeathRanks(s: State, s': State, w: nat, j: JobId)
    requires w in s.workers && s.workers[w].job == j && WorkerOk(s, w, s.workers[w])
    requires j in s'.jobs && s'.jobs[j] == JobAfter(s.jobs[j], Vanish)
    ensures Rank(s', j) <= Rank(s, j) + 6
  {
  }

  lemma DyingRanks(s: State, a: Action, j: JobId)
    requires Inv(s) && j in s.jobs && Drives(s, a, j) && Dies(a)
    ensures var s' := Step(s, a); j in s'.jobs && Rank(s', j) <= Rank(s, j) + 6
  {
    assert WorkerOk(s, a.w, s.workers[a.w]);
    if a.Work? { WrittenLeaves(s, a.w, a.answer); }
    DeathRanks(s, Step(s, a), a.w, j);
  }

  lemma StepBound(s: State, a: Action, j: JobId)
    requires Inv(s) && j in s.jobs
    ensures var s' := Step(s, a);
            && j in s'.jobs
            && (if Drives(s, a, j) then 1 else 0) + Rank(s', j) + 7 * s.jobs[j].losses <= Rank(s, j) + 7 * s'.jobs[j].losses
  {
    JobsMakeProgress(s, a, j);
    StepLosses(s, a, j);
    if Drives(s, a, j) && Dies(a) { DyingRanks(s, a, j); }
  }

  /** New jobs wait for their first attempt. */
  lemma NewJobs(s: State, a: Action, j: JobId)
    requires j !in s.jobs && j in Step(s, a).jobs
    ensures Step(s, a).jobs[j] == Job(Waiting, 0, 0, 0) && !Drives(s, a, j)
  {
    if a.Work? && Busy(s, a.w) { WrittenLeaves(s, a.w, a.answer); }
  }

  // ---------- runs ----------

  /** From any state on: the moves a job has been through and those it can still need are no more than
      the distance it started at and seven for each loss. */
  lemma {:induction false} RunBound(s: State, actions: seq<Action>, j: JobId)
    requires Inv(s) && j in s.jobs
    ensures var s' := Run(Step, s, actions);
            && j in s'.jobs
            && Moves(s, actions, j) + Rank(s', j) <= Rank(s, j) + 7 * (s'.jobs[j].losses - s.jobs[j].losses)
    decreases |actions|
  {
    if actions != [] {
      var n := |actions| - 1;
      RunBound(s, actions[..n], j);
      RunsAreGood(s, actions[..n]);
      StepBound(Run(Step, s, actions[..n]), actions[n], j);
    }
  }

  lemma {:induction false} MovesOfNoJob(s: State, actions: seq<Action>, j: JobId)
    requires Inv(s) && j !in Run(Step, s, actions).jobs
    ensures Moves(s, actions, j) == 0
    decreases |actions|
  {
    if actions != [] {
      var n := |actions| - 1;
      RunsAreGood(s, actions[..n]);
      var mid := Run(Step, s, actions[..n]);
      if j in mid.jobs { StepLosses(mid, actions[n], j); }
      MovesOfNoJob(s, actions[..n], j);
    }
  }

  /** In the life of a job there are at most 59 moves, and seven more for each loss. */
  lemma {:induction false} LifeBound(
    deliveryId: (Symbol, Symbol) -> Symbol, owner: Symbol -> Symbol, actions: seq<Action>, j: JobId)
    requires j in Reach(deliveryId, owner, actions).jobs
    ensures var s := Reach(deliveryId, owner, actions);
            Moves(Init(deliveryId, owner), actions, j) + Rank(s, j) <= 59 + 7 * s.jobs[j].losses
    decreases |actions|
  {
    var n := |actions| - 1;
    var s := Reach(deliveryId, owner, actions[..n]);
    ReachableIsGood(deliveryId, owner, actions[..n]);
    if j in s.jobs {
      LifeBound(deliveryId, owner, actions[..n], j);
      StepBound(s, actions[n], j);
    } else {
      MovesOfNoJob(Init(deliveryId, owner), actions[..n], j);
      NewJobs(s, actions[n], j);
    }
  }

  /** Some step other than a death moves the job. */
  ghost predicate Movable(s: State, j: JobId) {
    exists a :: Drives(s, a, j) && !Dies(a)
  }

  lemma UnfinishedIsMovable(s: State, j: JobId, answer: Answer) returns (a: Action)
    requires Inv(s) && j in s.jobs && !s.jobs[j].Finished() && answer.outcome != DiesAfter
    ensures Drives(s, a, j) && !Dies(a) && (a.Work? ==> a.answer == answer)
  {
    assert Held(s.workers, j, s.jobs[j]);
    if s.jobs[j].state == Waiting {
      var w := AboveAll(s.workers.Keys);
      a := Take(w, j);
    } else {
      a := Work(s.jobs[j].state.worker, answer);
    }
  }

  lemma FinishedIsNotMovable(s: State, a: Action, j: JobId)
    requires Inv(s) && j in s.jobs && s.jobs[j].Finished()
    ensures !Drives(s, a, j)
  {
    if (a.Work? || a.Die?) && a.w in s.workers {
      assert WorkerOk(s, a.w, s.workers[a.w]);
    }
  }

  /** A job that has not ended can be moved on, whatever state the rest is in; one that has ended cannot.
      And it has ended once it was moved 59 times, and seven times more for each worker that died with it. */
  lemma JobsEnd(deliveryId: (Symbol, Symbol) -> Symbol, owner: Symbol -> Symbol, actions: seq<Action>, j: JobId)
    requires j in Reach(deliveryId, owner, actions).jobs
    ensures var s := Reach(deliveryId, owner, actions);
            var moves := Moves(Init(deliveryId, owner), actions, j);
            && (!s.jobs[j].Finished() <==> Movable(s, j))
            && moves <= 59 + 7 * s.jobs[j].losses
            && (moves == 59 + 7 * s.jobs[j].losses ==> s.jobs[j].Finished())
  {
    var s := Reach(deliveryId, owner, actions);
    ReachableIsGood(deliveryId, owner, actions);
    LifeBound(deliveryId, owner, actions, j);
    if s.jobs[j].Finished() {
      forall a ensures !Drives(s, a, j) { FinishedIsNotMovable(s, a, j); }
    } else {
      var a := UnfinishedIsMovable(s, j, Answer(Succeeds, NeverTried, 0));
    }
  }

  // ---------- the job can be ended from anywhere ----------

  predicate AnsweredBy(actions: seq<Action>, oracle: nat -> Answer) {
    forall i :: 0 <= i < |actions| ==> actions[i].Take? || (actions[i].Work? && actions[i].answer == oracle(i))
  }

  lemma MovesSnoc(s: State, actions: seq<Action>, a: Action, j: JobId)
    requires Drives(Run(Step, s, actions), a, j)
    ensures Moves(s, actions + [a], j) == Moves(s, actions, j) + 1
  {
    assert (actions + [a])[..|actions|] == actions;
  }

  /** The run consists of moves of job j that the oracle answers. */
  ghost predicate Works(s: State, actions: seq<Action>, j: JobId, oracle: nat -> Answer) {
    && Moves(s, actions, j) == |actions| && AnsweredBy(actions, oracle)
    && j in s.jobs && j in Run(Step, s, actions).jobs && Run(Step, s, actions).jobs[j].losses == s.jobs[j].losses
  }

  lemma MovesOn(s: State, j: JobId, answer: Answer) returns (a: Action)
    requires Inv(s) && j in s.jobs && !s.jobs[j].Finished() && answer.outcome != DiesAfter
    ensures Drives(s, a, j) && (a.Take? || (a.Work? && a.answer == answer))
    ensures j in Step(s, a).jobs && Step(s, a).jobs[j].losses == s.jobs[j].losses && Rank(Step(s, a), j) < Rank(s, j)
  {
    a := UnfinishedIsMovable(s, j, answer);
    JobsMakeProgress(s, a, j);
    StepLosses(s, a, j);
  }

  lemma WorksOn(s: State, before: seq<Action>, j: JobId, oracle: nat -> Answer) returns (a: Action)
    requires Works(s, before, j, oracle) && Inv(Run(Step, s, before)) && !Run(Step, s, before).jobs[j].Finished()
    requires oracle(|before|).outcome != DiesAfter
    ensures Works(s, before + [a], j, oracle)
    ensures Rank(Run(Step, s, before + [a]), j) < Rank(Run(Step, s, before), j)
  {
    a := MovesOn(Run(Step, s, before), j, oracle(|before|));
    MovesSnoc(s, before, a, j);
    RunSnoc(Step, s, before, a);
  }

  lemma {:induction false} EndsFrom(s: State, before: seq<Action>, j: JobId, oracle: nat -> Answer) returns (actions: seq<Action>)
    requires Inv(s) && Works(s, before, j, oracle) && forall n :: oracle(n).outcome != DiesAfter
    ensures Works(s, actions, j, oracle) && Run(Step, s, actions).jobs[j].Finished()
    decreases Rank(Run(Step, s, before), j)
  {
    RunsAreGood(s, before);
    if Run(Step, s, before).jobs[j].Finished() {
      actions := before;
    } else {
      var a := WorksOn(s, before, j, oracle);
      actions := EndsFrom(s, before + [a], j, oracle);
    }
  }

  /** From every reachable state any unfinished job is brought to its end by its own steps alone, within
      its rank, whatever the stores and the endpoint answer. */
  lemma JobCanBeEnded(
    deliveryId: (Symbol, Symbol) -> Symbol, owner: Symbol -> Symbol, before: seq<Action>, j: JobId, oracle: nat -> Answer)
    returns (actions: seq<Action>)
    requires j in Reach(deliveryId, owner, before).jobs && forall n :: oracle(n).outcome != DiesAfter
    ensures var s := Reach(deliveryId, owner, before);
            |actions| <= Rank(s, j) && Moves(s, actions, j) == |actions| && AnsweredBy(actions, oracle)
    ensures var s' := Reach(deliveryId, owner, before + actions); j in s'.jobs && s'.jobs[j].Finished()
  {
    var s := Reach(deliveryId, owner, before);
    ReachableIsGood(deliveryId, owner, before);
    actions := EndsFrom(s, [], j, oracle);
    RunBound(s, actions, j);
    RunConcat(Step, Init(deliveryId, owner), before, actions);
  }

  // ---------- while the stores answer ----------

  lemma {:induction false} CleanJobsAreNotLost(
    deliveryId: (Symbol, Symbol) -> Symbol, owner: Symbol -> Symbol, actions: seq<Action>, id: Symbol)
    requires CleanRun(deliveryId, owner, actions, id) && Automatic(id) in Reach(deliveryId, owner, actions).jobs
    ensures Reach(deliveryId, owner, actions).jobs[Automatic(id)].losses == 0
    decreases |actions|
  {
    var n := |actions| - 1;
    var before := actions[..n];
    var s := Reach(deliveryId, owner, before);
    if Automatic(id) in s.jobs {
      forall m | 0 <= m < n ensures Clean(Reach(deliveryId, owner, before[..m]), before[m], id) {
        assert before[..m] == actions[..m];
      }
      CleanJobsAreNotLost(deliveryId, owner, before, id);
      assert Clean(s, actions[n], id);
      StepLosses(s, actions[n], Automatic(id));
    } else {
      NewJobs(s, actions[n], Automatic(id));
    }
  }

  /** The delivery's job has ended, and the row is what that end promises. */
  ghost predicate EndedAsReported(s: State, id: Symbol) {
    && id in s.deliveries && Automatic(id) in s.jobs
    && var row, job := s.deliveries[id], s.jobs[Automatic(id)].state;
       || (job == Completed(Posted) && row.status == Delivered)
       || (job == Completed(DeadLettered) && row.status == Dead)
       || (job == Completed(Discarded) && row.status == Failed && row.note == EndpointInactive)
  }

  lemma HonestEnds(s: State, id: Symbol)
    requires Honest(s, id) && Automatic(id) in s.jobs
    ensures EndedAsReported(s, id) <==> s.jobs[Automatic(id)].Finished()
    ensures id in s.deliveries && (s.jobs[Automatic(id)].Finished() || !s.deliveries[id].status.Terminal())
  {
  }

  /** While the stores answer, a delivery's job either has ended with its row delivered, dead or failed
      as its endpoint was switched off; or its row is not terminal, and it can be moved on, and it has
      been moved fewer than 59 times. */
  lemma CleanJobsEnd(deliveryId: (Symbol, Symbol) -> Symbol, owner: Symbol -> Symbol, actions: seq<Action>, id: Symbol)
    requires CleanRun(deliveryId, owner, actions, id) && Automatic(id) in Reach(deliveryId, owner, actions).jobs
    ensures var s := Reach(deliveryId, owner, actions);
            || EndedAsReported(s, id)
            || (&& id in s.deliveries && !s.deliveries[id].status.Terminal() && Movable(s, Automatic(id))
                && Moves(Init(deliveryId, owner), actions, Automatic(id)) < 59)
  {
    JobsEndAsReported(deliveryId, owner, actions, id);
    CleanJobsAreNotLost(deliveryId, owner, actions, id);
    JobsEnd(deliveryId, owner, actions, Automatic(id));
    HonestEnds(Reach(deliveryId, owner, actions), id);
  }
}
