/** "When a dispatch returns normally, every selected endpoint has a delivery that is terminal or whose
    job is queued" is not true as it stands: an automatic job that has ended without a terminal row is
    never queued again, and enqueue takes the old one for its own. Such a delivery is lost. */
module WebhookLost {
  import opened GoText
  import opened WebhookProtocol
  import opened WebhookInvariant
  import opened WebhookSteps
  import opened WebhookTheorems
  import opened WebhookFinality
  import opened WebhookSelected
  import opened Runs
  import opened Sums
  import S = WebhookScenarios

  /** Some job of the delivery is waiting or in work. */
  ghost predicate Queued(s: State, id: Symbol) {
    exists j :: j in s.jobs && j.deliveryId == id && !s.jobs[j].Finished()
  }

  /** What a normal return of dispatch is meant to say of a selected endpoint. */
  ghost predicate Served(s: State, id: Symbol) {
    id in s.deliveries && (s.deliveries[id].status.Terminal() || Queued(s, id))
  }

  /** The automatic job is there and has ended, the row is not terminal, and no other job works on it. */
  ghost predicate Lost(s: State, id: Symbol) {
    id in s.deliveries && !s.deliveries[id].status.Terminal() && Automatic(id) in s.jobs && !Queued(s, id)
  }

  // ---------- exactly when a normal return means what it should ----------

  /** The enqueue call for endpoint e has succeeded, or the dispatch has returned normally for it. */
  predicate Passed(s: State, d: nat, e: Symbol) {
    && d in s.dispatches
    && match s.dispatches[d].stage
       case Selecting => false
       case Enqueuing(calls) => e in calls && calls[e] == EnqueuePc.Settled(true)
       case Over(ok, selected) => ok && e in selected
  }

  /** The last call of enqueue, whichever it is, leaves a delivery that is terminal or queued exactly if
      it did not find a lost one. */
  lemma EnqueueServesIff(s: State, d: nat, e: Symbol, o: Outcome)
    requires Inv(s) && !Passed(s, d, e) && Passed(Step(s, Enqueue(d, e, o)), d, e)
    ensures var id := s.deliveryId(e, s.dispatches[d].event.id);
            o == Succeeds && (Served(Step(s, Enqueue(d, e, o)), id) <==> !Lost(s, id))
  {
    var event := s.dispatches[d].event;
    var id := s.deliveryId(e, event.id);
    var s' := Step(s, Enqueue(d, e, o));
    assert DispatchOk(s, s.dispatches[d]);
    match s.dispatches[d].stage.calls[e]
    case ToCreate =>
      assert s'.jobs == s.jobs && s'.deliveries == Upserted(s, id, e, event, o);
    case ToAdd =>
      assert CallOk(s, event, e, ToAdd);
      assert s'.deliveries == s.deliveries && s'.jobs == Added(s.jobs, Automatic(id), o);
      AddServesIff(s, s', id, o);
  }

  lemma AddServesIff(s: State, s': State, id: Symbol, o: Outcome)
    requires id in s.deliveries && o.TakesEffect()
    requires s'.deliveries == s.deliveries && s'.jobs == Added(s.jobs, Automatic(id), o)
    ensures Served(s', id) <==> !Lost(s, id)
  {
    if Automatic(id) !in s.jobs {
      assert !s'.jobs[Automatic(id)].Finished();
    }
  }

  lemma PassesByEnqueue(s: State, a: Action, d: nat, e: Symbol)
    requires !Passed(s, d, e) && Passed(Step(s, a), d, e)
    ensures a.Enqueue? && a.d == d && a.e == e
  {
    if !a.Receive? && !a.Select? && !a.Enqueue? && !a.Join? { OthersKeepDispatches(s, a); }
  }

  /** Step i of the run is the enqueue call's last one for endpoint e. Before it the dispatch had not
      passed e; and after it the delivery is terminal or queued exactly if it was not lost before. */
  ghost predicate ServedIffNotLost(
    deliveryId: (Symbol, Symbol) -> Symbol, owner: Symbol -> Symbol, actions: seq<Action>, d: nat, e: Symbol, i: nat)
    requires i < |actions|
  {
    var s, s' := Reach(deliveryId, owner, actions[..i]), Reach(deliveryId, owner, actions[..i + 1]);
    && actions[i] == Enqueue(d, e, Succeeds) && d in s.dispatches && !Passed(s, d, e) && Passed(s', d, e)
    && (Served(s', deliveryId(e, s.dispatches[d].event.id)) <==> !Lost(s, deliveryId(e, s.dispatches[d].event.id)))
  }

  /** The run has that moment for dispatch d and endpoint e. */
  ghost predicate EnqueuedIn(
    deliveryId: (Symbol, Symbol) -> Symbol, owner: Symbol -> Symbol, actions: seq<Action>, d: nat, e: Symbol)
  {
    exists i :: 0 <= i < |actions| && ServedIffNotLost(deliveryId, owner, actions, d, e, i)
  }

  /** For every dispatch that has returned normally and every endpoint it had selected there was the
      moment when the endpoint's enqueue call succeeded; and then, whatever else was going on, the
      delivery was terminal or queued exactly if its automatic job had not ended before without a
      terminal row. */
  lemma {:induction false} ReturnServesIff(
    deliveryId: (Symbol, Symbol) -> Symbol, owner: Symbol -> Symbol, actions: seq<Action>, d: nat, e: Symbol) returns (i: nat)
    requires Passed(Reach(deliveryId, owner, actions), d, e)
    ensures i < |actions| && ServedIffNotLost(deliveryId, owner, actions, d, e, i)
    decreases |actions|
  {
    var n := |actions| - 1;
    var before := actions[..n];
    var s := Reach(deliveryId, owner, before);
    if Passed(s, d, e) {
      i := ReturnServesIff(deliveryId, owner, before, d, e);
      assert actions[..i] == before[..i] && actions[..i + 1] == before[..i + 1];
    } else {
      i := n;
      ReachableIsGood(deliveryId, owner, before);
      PassesByEnqueue(s, actions[n], d, e);
      EnqueueServesIff(s, d, e, actions[n].outcome);
      assert actions[..n + 1] == actions;
    }
  }

  // ---------- what is lost stays lost ----------

  /** In no continuation without a manual retry is the row delivered. */
  ghost predicate NeverDelivered(s: State, id: Symbol) {
    forall after :: NoRetries(after, id) ==> !Delivers(s, after, id)
  }

  ghost predicate Delivers(s: State, actions: seq<Action>, id: Symbol) {
    id in Run(Step, s, actions).deliveries && Run(Step, s, actions).deliveries[id].status == Delivered
  }

  lemma MarkingDelivers(s: State, w: nat, row: Delivery)
    requires Busy(s, w) && s.workers[w].pc == MarkDelivered(row, OK.note) && row.id in s.deliveries
    ensures Delivers(s, [Work(w, OK)] + [], row.id)
  {
    RunCons(Step, s, Work(w, OK), []);
  }

  lemma PostingDelivers(s: State, w: nat, row: Delivery)
    requires Busy(s, w) && s.workers[w].pc == Post(row) && row.id in s.deliveries
    ensures Delivers(s, [Work(w, OK)] + ([Work(w, OK)] + []), row.id)
  {
    MarkingDelivers(Step(s, Work(w, OK)), w, row);
    RunCons(Step, s, Work(w, OK), [Work(w, OK)] + []);
  }

  lemma LookupDelivers(s: State, w: nat, row: Delivery)
    requires Busy(s, w) && s.workers[w].pc == LoadEndpoint(row) && row.id in s.deliveries
    requires row.endpointId in s.endpoints && s.endpoints[row.endpointId].isActive
    ensures Delivers(s, [Work(w, OK)] + ([Work(w, OK)] + ([Work(w, OK)] + [])), row.id)
  {
    PostingDelivers(Step(s, Work(w, OK)), w, row);
    RunCons(Step, s, Work(w, OK), [Work(w, OK)] + ([Work(w, OK)] + []));
  }

  lemma LoadingDelivers(s: State, w: nat, row: Delivery)
    requires Busy(s, w) && s.workers[w].pc == LoadDelivery && s.workers[w].job.deliveryId == row.id
    requires row.id in s.deliveries && s.deliveries[row.id] == row
    requires row.endpointId in s.endpoints && s.endpoints[row.endpointId].isActive
    ensures Delivers(s, [Work(w, OK)] + ([Work(w, OK)] + ([Work(w, OK)] + ([Work(w, OK)] + []))), row.id)
  {
    LookupDelivers(Step(s, Work(w, OK)), w, row);
    RunCons(Step, s, Work(w, OK), [Work(w, OK)] + ([Work(w, OK)] + ([Work(w, OK)] + [])));
  }

  /** A waiting job whose endpoint is on and accepts the post delivers its row. */
  lemma WaitingJobCanDeliver(s: State, j: JobId) returns (actions: seq<Action>)
    requires j in s.jobs && s.jobs[j].state == Waiting && j.deliveryId in s.deliveries
    requires s.deliveries[j.deliveryId].id == j.deliveryId
    ensures (forall id :: NoRetries(actions, id)) && Delivers(s, actions, j.deliveryId)
  {
    var row := s.deliveries[j.deliveryId];
    var w := AboveAll(s.workers.Keys);
    var on, take := SetEndpoint(row.endpointId, Endpoint(true, {})), Take(w, j);
    var calls := [Work(w, OK)] + ([Work(w, OK)] + ([Work(w, OK)] + ([Work(w, OK)] + [])));
    var s0 := Step(s, on);
    LoadingDelivers(Step(s0, take), w, row);
    RunCons(Step, s0, take, calls);
    RunCons(Step, s, on, [take] + calls);
    actions := [on] + ([take] + calls);
  }

  /** So does a job in work, if its worker dies and another takes it. */
  lemma QueuedCanDeliver(s: State, j: JobId) returns (actions: seq<Action>)
    requires Inv(s) && j in s.jobs && !s.jobs[j].Finished()
    ensures (forall id :: NoRetries(actions, id)) && Delivers(s, actions, j.deliveryId)
  {
    assert RowOk(s, j.deliveryId);
    if s.jobs[j].state == Waiting {
      actions := WaitingJobCanDeliver(s, j);
    } else {
      var w := s.jobs[j].state.worker;
      assert Held(s.workers, j, s.jobs[j]);
      var rest := WaitingJobCanDeliver(Step(s, Die(w)), j);
      RunCons(Step, s, Die(w), rest);
      actions := [Die(w)] + rest;
      forall id ensures NoRetries(actions, id) { assert NoRetries(rest, id); }
    }
  }

  /** A call of enqueue that is about to add the job adds it, and the job delivers. */
  lemma AddingCanDeliver(s: State, id: Symbol, d: nat, e: Symbol) returns (actions: seq<Action>)
    requires Inv(s) && id in s.deliveries && Automatic(id) !in s.jobs && AboutToAdd(s, d, e, id)
    ensures NoRetries(actions, id) && Delivers(s, actions, id)
  {
    assert RowOk(s, id);
    var rest := WaitingJobCanDeliver(Step(s, Enqueue(d, e, Succeeds)), Automatic(id));
    RunCons(Step, s, Enqueue(d, e, Succeeds), rest);
    assert NoRetries(rest, id);
    actions := [Enqueue(d, e, Succeeds)] + rest;
  }

  /** A dispatch that has selected the row's endpoint and has not called enqueue for it yet. */
  predicate Selected(s: State, d: nat, row: Delivery) {
    && d in s.dispatches && s.dispatches[d].event == EventOf(row) && s.dispatches[d].stage.Enqueuing?
    && row.endpointId in s.dispatches[d].stage.calls && s.dispatches[d].stage.calls[row.endpointId] == ToCreate
  }

  lemma RedeliverySelects(s: State, d: nat, row: Delivery)
    requires d in s.dispatches && s.dispatches[d] == FanOut(EventOf(row), Selecting)
    requires s.owner(row.endpointId) == row.merchantId
    requires row.endpointId in s.endpoints && s.endpoints[row.endpointId] == Endpoint(true, {row.eventType})
    ensures Selected(Step(s, Select(d, Succeeds)), d, row)
  {
    assert row.endpointId in Subscribed(s, EventOf(row));
  }

  lemma RedeliveryAsks(s: State, d: nat, row: Delivery)
    requires Selected(s, d, row) && row.id == s.deliveryId(row.endpointId, row.eventId)
    requires row.id in s.deliveries && !s.deliveries[row.id].status.Terminal()
    ensures AboutToAdd(Step(s, Enqueue(d, row.endpointId, Succeeds)), d, row.endpointId, row.id)
  {
  }

  /** The row is there, not terminal, and has no automatic job. */
  predicate Unasked(s: State, row: Delivery) {
    && row.id in s.deliveries && !s.deliveries[row.id].status.Terminal() && Automatic(row.id) !in s.jobs
    && row.id == s.deliveryId(row.endpointId, row.eventId) && s.owner(row.endpointId) == row.merchantId != 0
  }

  lemma AskingDelivers(s: State, d: nat, row: Delivery) returns (actions: seq<Action>)
    requires Inv(s) && Selected(s, d, row) && Unasked(s, row)
    ensures NoRetries(actions, row.id) && Delivers(s, actions, row.id)
  {
    var ask := Enqueue(d, row.endpointId, Succeeds);
    RedeliveryAsks(s, d, row);
    StepKeepsInvariant(s, ask);
    var rest := AddingCanDeliver(Step(s, ask), row.id, d, row.endpointId);
    RunCons(Step, s, ask, rest);
    actions := [ask] + rest;
  }

  lemma SelectingDelivers(s: State, d: nat, row: Delivery) returns (actions: seq<Action>)
    requires Inv(s) && d in s.dispatches && s.dispatches[d] == FanOut(EventOf(row), Selecting) && Unasked(s, row)
    requires row.endpointId in s.endpoints && s.endpoints[row.endpointId] == Endpoint(true, {row.eventType})
    ensures NoRetries(actions, row.id) && Delivers(s, actions, row.id)
  {
    RedeliverySelects(s, d, row);
    StepKeepsInvariant(s, Select(d, Succeeds));
    var rest := AskingDelivers(Step(s, Select(d, Succeeds)), d, row);
    RunCons(Step, s, Select(d, Succeeds), rest);
    actions := [Select(d, Succeeds)] + rest;
  }

  /** Without an automatic job, a redelivery of the event comes to add one. */
  lemma RedeliveryCanDeliver(s: State, id: Symbol) returns (actions: seq<Action>)
    requires Inv(s) && id in s.deliveries && !s.deliveries[id].status.Terminal() && Automatic(id) !in s.jobs
    ensures NoRetries(actions, id) && Delivers(s, actions, id)
  {
    var row := s.deliveries[id];
    assert RowOk(s, id);
    var d := AboveAll(s.dispatches.Keys);
    var on, receive := SetEndpoint(row.endpointId, Endpoint(true, {row.eventType})), Receive(d, EventOf(row));
    StepKeepsInvariant(s, on);
    StepKeepsInvariant(Step(s, on), receive);
    var rest := SelectingDelivers(Step(Step(s, on), receive), d, row);
    RunCons(Step, Step(s, on), receive, rest);
    RunCons(Step, s, on, [receive] + rest);
    actions := [on] + ([receive] + rest);
  }

  /** A row that is not settled can be delivered. */
  lemma UnsettledCanDeliver(s: State, id: Symbol) returns (actions: seq<Action>)
    requires Inv(s) && id in s.deliveries && !WebhookFinality.Settled(s, id)
    ensures NoRetries(actions, id) && Delivers(s, actions, id)
  {
    if j :| j in s.jobs && j.deliveryId == id && !s.jobs[j].Finished() {
      actions := QueuedCanDeliver(s, j);
    } else if d, e :| AboutToAdd(s, d, e, id) && Automatic(id) !in s.jobs {
      actions := AddingCanDeliver(s, id, d, e);
    } else {
      actions := RedeliveryCanDeliver(s, id);
    }
  }

  /** A delivery that is not delivered yet never will be, unless somebody retries it by hand, exactly
      when its jobs have ended and no redelivery can bring a new one: it is lost, or dead for good. */
  lemma NeverDeliveredIff(
    deliveryId: (Symbol, Symbol) -> Symbol, owner: Symbol -> Symbol, actions: seq<Action>, id: Symbol)
    requires var s := Reach(deliveryId, owner, actions); id in s.deliveries && s.deliveries[id].status != Delivered
    ensures var s := Reach(deliveryId, owner, actions);
            NeverDelivered(s, id) <==> Lost(s, id) || (s.deliveries[id].status == Dead && Idle(s, id))
  {
    var s := Reach(deliveryId, owner, actions);
    ReachableIsGood(deliveryId, owner, actions);
    assert WebhookFinality.Settled(s, id) <==> Lost(s, id) || (s.deliveries[id].status == Dead && Idle(s, id));
    if WebhookFinality.Settled(s, id) {
      forall after | NoRetries(after, id) ensures !Delivers(s, after, id) { SettledStays(s, after, id); }
    } else {
      var after := UnsettledCanDeliver(s, id);
    }
  }

  /** For every event and endpoint there is a run after which a dispatch of the event has returned
      normally, the endpoint is on and subscribed, nothing was ever posted to it, and nothing will be
      without a manual retry, however often the event is redelivered. */
  lemma ReturnedDispatchCanLose(x: S.Scenario) returns (actions: seq<Action>)
    requires x.Plausible()
    ensures var s := Reach(x.deliveryId, x.owner, actions);
            && Passed(s, 1, x.endpoint) && s.dispatches[1].stage.Over? && x.endpoint in Subscribed(s, x.event)
            && Lost(s, x.Id()) && s.posted == {} && NeverDelivered(s, x.Id())
  {
    actions := S.RedispatchLosesDelivery(x);
    NeverDeliveredIff(x.deliveryId, x.owner, actions, x.Id());
  }

  /** A row can be delivered, and the post accepted, and yet end as failed, because the answer of the
      write was lost or the worker died over it. */
  lemma DeliveredCanFail(x: S.Scenario, o: Outcome) returns (before: seq<Action>, after: seq<Action>)
    requires x.Plausible() && o in {FailsAfter, DiesAfter}
    ensures var s, s' := Reach(x.deliveryId, x.owner, before), Reach(x.deliveryId, x.owner, before + after);
            && x.Id() in s.deliveries && s.deliveries[x.Id()].status == Delivered && x.Id() in s.posted && !Idle(s, x.Id())
            && x.Id() in s'.deliveries && s'.deliveries[x.Id()].status == Failed && NoRetries(after, x.Id())
  {
    before := S.LosesTheAnswer(x, o);
    var s := Reach(x.deliveryId, x.owner, before);
    ReachableIsGood(x.deliveryId, x.owner, before);
    after := RestlessRowCanFail(s, x.Id());
    RunConcat(Step, Init(x.deliveryId, x.owner), before, after);
  }
}
