/** What the webhook protocol guarantees over every run. */
module WebhookTheorems {
  import opened GoText
  import opened WebhookProtocol
  import opened WebhookInvariant
  import opened WebhookSteps
  import opened Runs

  lemma RunsAreGood(s: State, actions: seq<Action>)
    requires Inv(s)
    ensures Good(s, Run(Step, s, actions))
  {
    forall x: State, a: Action | Inv(x) ensures Good(x, Step(x, a)) { StepKeepsInvariant(x, a); }
    forall x: State ensures Grows(x, x) { GrowsReflexive(x); }
    forall x, y, z: State | Grows(x, y) && Grows(y, z) ensures Grows(x, z) { GrowsTransitive(x, y, z); }
    RelationOfRun(Step, Inv, Grows, s, actions);
  }

  lemma ReachableIsGood(deliveryId: (Symbol, Symbol) -> Symbol, owner: Symbol -> Symbol, actions: seq<Action>)
    ensures Inv(Reach(deliveryId, owner, actions))
    ensures Reach(deliveryId, owner, actions).deliveryId == deliveryId
    ensures Reach(deliveryId, owner, actions).owner == owner
  {
    RunsAreGood(Init(deliveryId, owner), actions);
  }

  lemma Later(deliveryId: (Symbol, Symbol) -> Symbol, owner: Symbol -> Symbol, before: seq<Action>, after: seq<Action>)
    ensures Inv(Reach(deliveryId, owner, before))
    ensures Good(Reach(deliveryId, owner, before), Reach(deliveryId, owner, before + after))
    ensures Reach(deliveryId, owner, before + after) == Run(Step, Reach(deliveryId, owner, before), after)
  {
    ReachableIsGood(deliveryId, owner, before);
    RunConcat(Step, Init(deliveryId, owner), before, after);
    RunsAreGood(Reach(deliveryId, owner, before), after);
  }

  /** What a trace that got longer cannot have undone. */
  lemma Onwards(deliveryId: (Symbol, Symbol) -> Symbol, owner: Symbol -> Symbol, before: seq<Action>, after: seq<Action>)
    requires before <= after
    ensures Grows(Reach(deliveryId, owner, before), Reach(deliveryId, owner, after))
  {
    assert before + after[|before|..] == after;
    Later(deliveryId, owner, before, after[|before|..]);
  }

  // ---------- fan-out ----------

  /** However often an event is dispatched, an endpoint has at most one delivery row and at most one
      automatic job for it, and the row belongs to the merchant who owns the endpoint. */
  lemma AtMostOneDelivery(
    deliveryId: (Symbol, Symbol) -> Symbol, owner: Symbol -> Symbol, actions: seq<Action>, e: Symbol, event: Symbol)
    ensures var s := Reach(deliveryId, owner, actions);
            && (forall i, j | RowIsFor(s, i, e, event) && RowIsFor(s, j, e, event) :: i == j)
            && (forall i, j | i in s.jobs && RowIsFor(s, i.deliveryId, e, event)
                              && j in s.jobs && RowIsFor(s, j.deliveryId, e, event) :: i.Automatic? && j.Automatic? ==> i == j)
            && (forall i :: i in s.deliveries ==> owner(s.deliveries[i].endpointId) == s.deliveries[i].merchantId)
  {
    ReachableIsGood(deliveryId, owner, actions);
    var s := Reach(deliveryId, owner, actions);
    forall i | RowIsFor(s, i, e, event) ensures i == deliveryId(e, event) {
      assert RowOk(s, i);
    }
    forall i | i in s.deliveries ensures owner(s.deliveries[i].endpointId) == s.deliveries[i].merchantId {
      assert RowOk(s, i);
    }
  }

  predicate IsFor(row: Delivery, e: Symbol, event: Symbol) {
    row.endpointId == e && row.eventId == event
  }

  predicate RowIsFor(s: State, id: Symbol, e: Symbol, event: Symbol) {
    id in s.deliveries && IsFor(s.deliveries[id], e, event)
  }

  /** A dispatch that selected its endpoints in state `before`, whatever else happened since, and
      that has returned normally, has left a row and a job for every endpoint that was active and
      subscribed then; and while the hash does not collide, the row is that endpoint's. The job may have
      ended: WebhookLost tells exactly when the delivery was terminal or queued. */
  lemma FanOutIsComplete(
    deliveryId: (Symbol, Symbol) -> Symbol, owner: Symbol -> Symbol, before: seq<Action>, d: nat, o: Outcome,
    after: seq<Action>, e: Symbol)
    requires var s := Reach(deliveryId, owner, before);
             && d in s.dispatches && s.dispatches[d].stage.Selecting? && e in s.endpoints && s.endpoints[e].isActive
             && owner(e) == s.dispatches[d].event.merchantId && s.dispatches[d].event.eventType in s.endpoints[e].events
    requires var s' := Reach(deliveryId, owner, before + [Select(d, o)] + after);
             d in s'.dispatches && s'.dispatches[d].stage.Over? && s'.dispatches[d].stage.ok
    ensures var event := Reach(deliveryId, owner, before).dispatches[d].event;
            var s' := Reach(deliveryId, owner, before + [Select(d, o)] + after);
            var id := deliveryId(e, event.id);
            && id in s'.deliveries && HasJob(s'.jobs, id)
            && ((forall f, i :: deliveryId(f, i) == id ==> f == e && i == event.id) ==> IsFor(s'.deliveries[id], e, event.id))
  {
    var s, mid := Reach(deliveryId, owner, before), before + [Select(d, o)];
    assert mid[..|before|] == before;
    assert Reach(deliveryId, owner, mid) == Step(s, Select(d, o));
    Later(deliveryId, owner, mid, after);
    ReachableIsGood(deliveryId, owner, mid);
    var s', event := Reach(deliveryId, owner, mid + after), s.dispatches[d].event;
    assert DispatchOk(s', s'.dispatches[d]);
    assert e in s'.dispatches[d].stage.selected;
    assert CallOk(s', event, e, Settled(true));
    assert RowOk(s', deliveryId(e, event.id));
  }

  // ---------- attempts ----------

  /** A job makes at most five attempts that count; it is started once more only for every worker
      that died with it. It fails for good only after five, and it never misses its row. */
  lemma AttemptsAreBounded(
    deliveryId: (Symbol, Symbol) -> Symbol, owner: Symbol -> Symbol, actions: seq<Action>, j: JobId)
    requires j in Reach(deliveryId, owner, actions).jobs
    ensures var s := Reach(deliveryId, owner, actions);
            var job := s.jobs[j];
            && job.attemptsMade <= 5 && job.starts <= 5 + job.losses
            && (job.state == Exhausted <==> job.attemptsMade == 5)
            && j.deliveryId in s.deliveries && job.state != Completed(NotFound)
  {
    ReachableIsGood(deliveryId, owner, actions);
    var s := Reach(deliveryId, owner, actions);
    assert JobOk(s.jobs[j]);
  }

  /** How far a job is from its end. */
  function Rank(s: State, j: JobId): nat
    requires j in s.jobs
  {
    var job := s.jobs[j];
    if job.Finished() then 0
    else
      var left := if job.attemptsMade < ATTEMPTS then ATTEMPTS - job.attemptsMade else 0;
      10 * left + 1 + (if job.state.Active? && job.state.worker in s.workers then PcRank(s.workers[job.state.worker].pc) else 8)
  }

  function PcRank(pc: WorkerPc): nat {
    match pc
    case LoadDelivery => 7
    case LoadEndpoint(_) => 6
    case MarkInactive(_) => 5
    case Post(_) => 4
    case MarkDelivered(_, _) => 3
    case MarkFailed(_, _) => 2
    case MarkDead(_, _) => 2
  }

  lemma DecisionRanks(s: State, w: nat, v: Verdict, j: JobId)
    requires Busy(s, w) && s.jobs[s.workers[w].job].state == Active(w) && JobOk(s.jobs[s.workers[w].job])
    requires j in s.jobs && Held(s.workers, j, s.jobs[j])
    ensures j in Decided(s, w, v).jobs
    ensures s.workers[w].job != j ==> Rank(Decided(s, w, v), j) == Rank(s, j)
    ensures s.workers[w].job == j && v != Vanish && (v.GoOn? ==> PcRank(v.pc) < PcRank(s.workers[w].pc)) ==>
              Rank(Decided(s, w, v), j) < Rank(s, j)
  {
  }

  lemma VerdictRanks(s: State, w: nat, a: Answer)
    requires Busy(s, w)
    ensures VerdictOf(s, w, a) == Vanish <==> a.outcome == DiesAfter
    ensures VerdictOf(s, w, a).GoOn? ==> PcRank(VerdictOf(s, w, a).pc) < PcRank(s.workers[w].pc)
  {
  }

  /** Taking a job and every call of a worker that lives brings the job nearer to its end, whatever
      the call's outcome, and no other step takes it further away. WebhookProgress sums this up over runs. */
  lemma JobsMakeProgress(s: State, a: Action, j: JobId)
    requires Inv(s) && j in s.jobs
    ensures var s' := Step(s, a);
            && j in s'.jobs
            && (Drives(s, a, j) && !Dies(a) ==> Rank(s', j) < Rank(s, j))
            && (!Drives(s, a, j) ==> Rank(s', j) == Rank(s, j))
  {
    assert JobOk(s.jobs[j]) && Held(s.workers, j, s.jobs[j]);
    if (a.Work? || a.Die?) && Busy(s, a.w) {
      assert WorkerOk(s, a.w, s.workers[a.w]) && JobOk(s.jobs[s.workers[a.w].job]);
      if a.Work? { WorkRanks(s, a.w, a.answer, j); } else { DecisionRanks(s, a.w, Vanish, j); }
    } else if a.Take? {
      if Step(s, a) != s { TakeRanks(s, a.w, a.job, j); }
    } else {
      QuietWrites(s, a, j);
    }
  }

  lemma WorkRanks(s: State, w: nat, a: Answer, j: JobId)
    requires w in s.workers && WorkerOk(s, w, s.workers[w]) && JobOk(s.jobs[s.workers[w].job])
    requires j in s.jobs && Held(s.workers, j, s.jobs[j])
    ensures j in WorkNext(s, w, a).jobs
    ensures s.workers[w].job != j ==> Rank(WorkNext(s, w, a), j) == Rank(s, j)
    ensures s.workers[w].job == j && a.outcome != DiesAfter ==> Rank(WorkNext(s, w, a), j) < Rank(s, j)
  {
    WrittenLeaves(s, w, a);
    VerdictRanks(s, w, a);
    DecisionRanks(Written(s, w, a), w, VerdictOf(s, w, a), j);
  }

  /** Steps that neither hand out a job nor move a worker leave existing jobs and all workers alone. */
  lemma QuietWrites(s: State, a: Action, j: JobId)
    requires j in s.jobs && !a.Take? && !((a.Work? || a.Die?) && Busy(s, a.w))
    ensures var s' := Step(s, a); s'.workers == s.workers && j in s'.jobs && s'.jobs[j] == s.jobs[j]
  {
  }

  lemma TakeRanks(s: State, w: nat, job: JobId, j: JobId)
    requires j in s.jobs && JobOk(s.jobs[j]) && Held(s.workers, j, s.jobs[j])
    requires w !in s.workers && job in s.jobs && s.jobs[job].state == Waiting
    ensures var s' := Taken(s, w, job);
            j in s'.jobs && (if job == j then Rank(s', j) < Rank(s, j) else Rank(s', j) == Rank(s, j))
  {
  }

  /** The step moves job j. */
  predicate Drives(s: State, a: Action, j: JobId) {
    || (a.Take? && a.job == j && j in s.jobs && s.jobs[j].state == Waiting && a.w !in s.workers)
    || ((a.Work? || a.Die?) && Busy(s, a.w) && s.workers[a.w].job == j)
  }

  predicate Dies(a: Action) {
    a.Die? || (a.Work? && a.answer.outcome == DiesAfter)
  }

  // ---------- dead letters ----------

  /** A dead delivery has exactly one dead letter, and it agrees with the delivery. Letters are never
      lost, and only their failure log may change, manual retries included. */
  lemma DeadLettersAreConsistent(
    deliveryId: (Symbol, Symbol) -> Symbol, owner: Symbol -> Symbol, before: seq<Action>, after: seq<Action>, id: Symbol)
    requires id in Reach(deliveryId, owner, before).deliveries
    requires Reach(deliveryId, owner, before).deliveries[id].status == Dead
    ensures var row, s' := Reach(deliveryId, owner, before).deliveries[id], Reach(deliveryId, owner, before + after);
            exists l :: && l in s'.letters && s'.letters[l].deliveryId == id
                        && Envelope(s'.letters[l])
                           == Letter(id, row.endpointId, row.merchantId, row.eventType, row.payload, 0, NeverTried)
                        && (forall m :: m in s'.letters && s'.letters[m].deliveryId == id ==> m == l)
  {
    Later(deliveryId, owner, before, after);
    LetterOfDead(Reach(deliveryId, owner, before), Reach(deliveryId, owner, before + after), id);
  }

  lemma LetterOfDead(s: State, s': State, id: Symbol)
    requires id in s.deliveries && RowOk(s, id) && s.deliveries[id].status == Dead
    requires (forall l :: l in s.letters ==> LetterOk(s.deliveries, s.letters[l])) && Grows(s, s') && UniqueLetters(s'.letters)
    ensures var row := s.deliveries[id];
            exists l :: && l in s'.letters && s'.letters[l].deliveryId == id
                        && Envelope(s'.letters[l])
                           == Letter(id, row.endpointId, row.merchantId, row.eventType, row.payload, 0, NeverTried)
                        && (forall m :: m in s'.letters && s'.letters[m].deliveryId == id ==> m == l)
  {
    var l :| l in s.letters && s.letters[l].deliveryId == id;
    assert LetterOk(s.deliveries, s.letters[l]);
    assert Envelope(s'.letters[l]) == Envelope(s.letters[l]);
    assert Envelope(s'.letters[l]).deliveryId == s'.letters[l].deliveryId;
  }

  /** A delivery that is marked delivered was accepted by its endpoint. */
  lemma DeliveredWasPosted(
    deliveryId: (Symbol, Symbol) -> Symbol, owner: Symbol -> Symbol, actions: seq<Action>, id: Symbol)
    requires id in Reach(deliveryId, owner, actions).deliveries
    requires Reach(deliveryId, owner, actions).deliveries[id].status == Delivered
    ensures id in Reach(deliveryId, owner, actions).posted
  {
    ReachableIsGood(deliveryId, owner, actions);
    assert RowOk(Reach(deliveryId, owner, actions), id);
  }
}
