/** How a delivery's automatic job ends while the stores answer. Posts may fail as they like, but no
    repository call of the job fails, no worker dies with it and nobody retries it by hand. */
module WebhookEndings {
  import opened GoText
  import opened WebhookProtocol
  import opened WebhookInvariant
  import opened WebhookSteps
  import opened WebhookTheorems
  import opened WebhookFinality
  import opened Runs

  /** The step is no store error of this delivery's job, no death of its worker, no manual retry of it. */
  predicate Clean(s: State, a: Action, id: Symbol) {
    && !Retries(a, id)
    && ((a.Work? || a.Die?) && Busy(s, a.w) && s.workers[a.w].job == Automatic(id) ==>
          && a.Work? && a.answer.outcome != DiesAfter
          && (s.workers[a.w].pc.Post? || a.answer.outcome == Succeeds)
          && (s.workers[a.w].pc.MarkDead? ==> a.answer.letterId !in s.letters))
  }

  ghost predicate CleanRun(deliveryId: (Symbol, Symbol) -> Symbol, owner: Symbol -> Symbol, actions: seq<Action>, id: Symbol) {
    forall n :: 0 <= n < |actions| ==> Clean(Reach(deliveryId, owner, actions[..n]), actions[n], id)
  }

  /** The row is what the job reported. */
  predicate Agrees(job: JobState, row: Delivery) {
    match job
    case Waiting => !row.status.Terminal()
    case Active(_) => !row.status.Terminal()
    case Completed(Posted) => row.status == Delivered
    case Completed(DeadLettered) => row.status == Dead
    case Completed(Discarded) => row.status == Failed && row.note == EndpointInactive
    case Completed(NotFound) => false
    case Exhausted => false
  }

  ghost predicate Honest(s: State, id: Symbol) {
    && (forall j :: j in s.jobs && j.deliveryId == id ==> j == Automatic(id))
    && (id in s.deliveries && Automatic(id) !in s.jobs ==> s.deliveries[id].status == Pending)
    && (Automatic(id) in s.jobs ==> id in s.deliveries && Agrees(s.jobs[Automatic(id)].state, s.deliveries[id]))
  }

  lemma HonestCarries(s: State, s': State, id: Symbol)
    requires Honest(s, id)
    requires id in s.deliveries ==> id in s'.deliveries && s'.deliveries[id] == s.deliveries[id]
    requires id !in s.deliveries && id in s'.deliveries ==> s'.deliveries[id].status == Pending
    requires forall j :: j in s'.jobs && j.deliveryId == id ==> j in s.jobs && s'.jobs[j] == s.jobs[j]
    requires forall j :: j in s.jobs ==> j in s'.jobs
    ensures Honest(s', id)
  {
  }

  /** A call of the delivery's own job. */
  lemma OwnWork(s: State, w: nat, a: Answer, id: Symbol)
    requires Honest(s, id) && w in s.workers && WorkerOk(s, w, s.workers[w]) && s.workers[w].job == Automatic(id)
    requires JobOk(s.jobs[Automatic(id)]) && Clean(s, Work(w, a), id)
    ensures Honest(WorkNext(s, w, a), id)
  {
    WrittenLeaves(s, w, a);
  }

  lemma OthersWork(s: State, w: nat, a: Answer, id: Symbol)
    requires Honest(s, id) && w in s.workers && WorkerOk(s, w, s.workers[w]) && s.workers[w].job.deliveryId != id
    ensures Honest(WorkNext(s, w, a), id)
  {
    WrittenLeaves(s, w, a);
    if id in s.deliveries { WrittenElsewhere(s, w, a, id); } else { NoNewRows(s, w, a, id); }
    HonestCarries(s, WorkNext(s, w, a), id);
  }

  lemma NoNewRows(s: State, w: nat, a: Answer, id: Symbol)
    requires Busy(s, w) && id !in s.deliveries
    ensures id !in Written(s, w, a).deliveries
  {
  }

  lemma OthersDie(s: State, w: nat, id: Symbol)
    requires Honest(s, id) && Busy(s, w) && s.workers[w].job.deliveryId != id
    ensures Honest(Decided(s, w, Vanish), id)
  {
    HonestCarries(s, Decided(s, w, Vanish), id);
  }

  lemma EnqueueIsHonest(s: State, d: nat, e: Symbol, o: Outcome, id: Symbol)
    requires Honest(s, id) && d in s.dispatches && DispatchOk(s, s.dispatches[d])
    requires s.dispatches[d].stage.Enqueuing? && e in s.dispatches[d].stage.calls
    ensures Honest(EnqueueNext(s, d, e, o), id)
  {
    var s', event := EnqueueNext(s, d, e, o), s.dispatches[d].event;
    var own := s.deliveryId(e, event.id);
    match s.dispatches[d].stage.calls[e]
    case ToCreate =>
      assert s'.jobs == s.jobs && s'.deliveries == Upserted(s, own, e, event, o);
      HonestCarries(s, s', id);
    case ToAdd =>
      assert s'.deliveries == s.deliveries && s'.jobs == Added(s.jobs, Automatic(own), o);
      assert CallOk(s, event, e, ToAdd);
      AddingIsHonest(s, s', own, o, id);
    case Settled(_) =>
  }

  /** A job is added for a row that has none. */
  lemma AddingIsHonest(s: State, s': State, own: Symbol, o: Outcome, id: Symbol)
    requires Honest(s, id) && own in s.deliveries
    requires s'.deliveries == s.deliveries && s'.jobs == Added(s.jobs, Automatic(own), o)
    ensures Honest(s', id)
  {
  }

  lemma StepIsHonest(s: State, a: Action, id: Symbol)
    requires Inv(s) && Honest(s, id) && Clean(s, a, id)
    ensures Honest(Step(s, a), id)
  {
    if a.Work? && Busy(s, a.w) {
      assert WorkerOk(s, a.w, s.workers[a.w]) && JobOk(s.jobs[s.workers[a.w].job]);
      if s.workers[a.w].job == Automatic(id) { OwnWork(s, a.w, a.answer, id); } else { OthersWork(s, a.w, a.answer, id); }
    } else if a.Die? && Busy(s, a.w) {
      OthersDie(s, a.w, id);
    } else if a.Enqueue? {
      if a.d in s.dispatches && s.dispatches[a.d].stage.Enqueuing? && a.e in s.dispatches[a.d].stage.calls {
        EnqueueIsHonest(s, a.d, a.e, a.outcome, id);
      }
    } else if a.Take? {
      TakeIsHonest(s, a.w, a.job, id);
    } else {
      QuietIsHonest(s, a, id);
    }
  }

  lemma TakeIsHonest(s: State, w: nat, j: JobId, id: Symbol)
    requires Honest(s, id)
    ensures Honest(Step(s, Take(w, j)), id)
  {
  }

  lemma QuietIsHonest(s: State, a: Action, id: Symbol)
    requires Honest(s, id) && !Retries(a, id) && !a.Take? && !a.Enqueue? && !((a.Work? || a.Die?) && Busy(s, a.w))
    ensures Honest(Step(s, a), id)
  {
    HonestCarries(s, Step(s, a), id);
  }

  /** While the stores answer, a delivery's job ends with its row delivered, dead, or failed because
      its endpoint was switched off, and with nothing else; a row without a job is still pending, and
      a row whose job goes on is not terminal. */
  lemma {:induction false} JobsEndAsReported(
    deliveryId: (Symbol, Symbol) -> Symbol, owner: Symbol -> Symbol, actions: seq<Action>, id: Symbol)
    requires CleanRun(deliveryId, owner, actions, id)
    ensures Honest(Reach(deliveryId, owner, actions), id)
    decreases |actions|
  {
    if actions != [] {
      var n := |actions| - 1;
      var before := actions[..n];
      forall m | 0 <= m < n ensures Clean(Reach(deliveryId, owner, before[..m]), before[m], id) {
        assert before[..m] == actions[..m];
      }
      JobsEndAsReported(deliveryId, owner, before, id);
      ReachableIsGood(deliveryId, owner, before);
      StepIsHonest(Reach(deliveryId, owner, before), actions[n], id);
    }
  }
}
