/** When a delivery's terminal status is final. "Delivered is final" and "dead is final" are not true
    as they stand: a job can go on although its row is terminal, after a status write whose answer
    was lost, after the death of a worker, or after a manual retry. The exact condition is that no
    job of the delivery is unfinished or about to be added. */
module WebhookFinality {
  import opened GoText
  import opened WebhookProtocol
  import opened WebhookInvariant
  import opened WebhookSteps
  import opened WebhookTheorems
  import opened Runs
  import opened Sums

  predicate Retries(a: Action, id: Symbol) {
    a.Retry? && a.id == id
  }

  /** An enqueue call is about to add the automatic job of this delivery. */
  predicate AboutToAdd(s: State, d: nat, e: Symbol, id: Symbol) {
    && d in s.dispatches && s.dispatches[d].stage.Enqueuing? && e in s.dispatches[d].stage.calls
    && s.dispatches[d].stage.calls[e] == ToAdd && s.deliveryId(e, s.dispatches[d].event.id) == id
  }

  /** Every job of the delivery has ended, and no new automatic one can start. */
  ghost predicate Idle(s: State, id: Symbol) {
    && (forall j :: j in s.jobs && j.deliveryId == id ==> s.jobs[j].Finished())
    && (Automatic(id) in s.jobs || forall d, e :: !AboutToAdd(s, d, e, id))
  }

  /** Nothing is under way for the row, and no redelivery can bring it under way: its automatic job was
      there and is over, or enqueue will not ask for one because the row is terminal. */
  ghost predicate Settled(s: State, id: Symbol) {
    id in s.deliveries && Idle(s, id) && (Automatic(id) in s.jobs || s.deliveries[id].status.Terminal())
  }

  // ---------- idle rows stay as they are ----------

  lemma SettledCarries(s: State, s': State, id: Symbol)
    requires Settled(s, id) && id in s'.deliveries && s'.deliveries[id] == s.deliveries[id]
    requires forall j :: j in s'.jobs && j.deliveryId == id && !s'.jobs[j].Finished() ==> j in s.jobs && !s.jobs[j].Finished()
    requires Automatic(id) in s.jobs ==> Automatic(id) in s'.jobs
    requires Automatic(id) in s.jobs || forall d, e :: AboutToAdd(s', d, e, id) ==> AboutToAdd(s, d, e, id)
    ensures Settled(s', id)
  {
  }

  lemma WrittenElsewhere(s: State, w: nat, a: Answer, id: Symbol)
    requires Busy(s, w) && WorkerOk(s, w, s.workers[w]) && s.workers[w].job.deliveryId != id && id in s.deliveries
    ensures id in Written(s, w, a).deliveries && Written(s, w, a).deliveries[id] == s.deliveries[id]
    ensures Written(s, w, a).deliveryId == s.deliveryId
  {
  }

  lemma WorkKeepsSettled(s: State, w: nat, a: Answer, id: Symbol)
    requires Settled(s, id) && w in s.workers && WorkerOk(s, w, s.workers[w])
    ensures var s' := WorkNext(s, w, a); Settled(s', id) && s'.deliveries[id] == s.deliveries[id]
  {
    assert s.workers[w].job.deliveryId != id;
    WrittenElsewhere(s, w, a, id);
    WrittenLeaves(s, w, a);
    SettledCarries(s, WorkNext(s, w, a), id);
  }

  /** enqueue adds no job for a row that it finds terminal. */
  lemma EnqueueSkipsSettled(s: State, d: nat, e: Symbol, o: Outcome, id: Symbol)
    requires Settled(s, id) && s.deliveries[id].status.Terminal()
    requires d in s.dispatches && s.dispatches[d].stage.Enqueuing? && e in s.dispatches[d].stage.calls
    ensures !AboutToAdd(EnqueueNext(s, d, e, o), d, e, id)
  {
  }

  lemma EnqueueWrites(s: State, d: nat, e: Symbol, o: Outcome, id: Symbol)
    requires id in s.deliveries
    requires d in s.dispatches && s.dispatches[d].stage.Enqueuing? && e in s.dispatches[d].stage.calls
    ensures var s' := EnqueueNext(s, d, e, o);
            && id in s'.deliveries && s'.deliveries[id] == s.deliveries[id]
            && (forall j :: j in s.jobs ==> j in s'.jobs && s'.jobs[j] == s.jobs[j])
            && (forall j :: j in s'.jobs && j !in s.jobs ==> j.Automatic? && AboutToAdd(s, d, e, j.deliveryId))
  {
    var s', own := EnqueueNext(s, d, e, o), s.deliveryId(e, s.dispatches[d].event.id);
    match s.dispatches[d].stage.calls[e]
    case ToCreate =>
      assert s'.jobs == s.jobs && s'.deliveries == Upserted(s, own, e, s.dispatches[d].event, o);
    case ToAdd =>
      assert s'.deliveries == s.deliveries && s'.jobs == Added(s.jobs, Automatic(own), o);
      assert AboutToAdd(s, d, e, own);
    case Settled(_) =>
  }

  lemma EnqueueKeepsSettled(s: State, d: nat, e: Symbol, o: Outcome, id: Symbol)
    requires Settled(s, id)
    requires d in s.dispatches && s.dispatches[d].stage.Enqueuing? && e in s.dispatches[d].stage.calls
    ensures var s' := EnqueueNext(s, d, e, o); Settled(s', id) && s'.deliveries[id] == s.deliveries[id]
  {
    var s' := EnqueueNext(s, d, e, o);
    forall c, f | AboutToAdd(s', c, f, id) && Automatic(id) !in s.jobs ensures AboutToAdd(s, c, f, id) {
      if c == d && f == e { EnqueueSkipsSettled(s, d, e, o, id); }
    }
    EnqueueWrites(s, d, e, o, id);
    SettledCarries(s, s', id);
  }

  /** The steps of a dispatch other than its enqueue calls start none of those at their second call. */
  lemma DispatchKeepsSettled(s: State, a: Action, id: Symbol)
    requires Settled(s, id) && (a.Select? || a.Join? || a.Receive?)
    ensures var s' := Step(s, a); Settled(s', id) && s'.deliveries[id] == s.deliveries[id]
  {
    SettledCarries(s, Step(s, a), id);
  }

  lemma QueueKeepsSettled(s: State, a: Action, id: Symbol)
    requires Settled(s, id) && !Retries(a, id) && (a.Take? || a.Retry? || a.SetEndpoint? || a.DeleteEndpoint?)
    ensures var s' := Step(s, a); Settled(s', id) && s'.deliveries[id] == s.deliveries[id]
  {
    SettledCarries(s, Step(s, a), id);
  }

  lemma DeathKeepsSettled(s: State, w: nat, id: Symbol)
    requires Settled(s, id) && w in s.workers && WorkerOk(s, w, s.workers[w])
    ensures var s' := Decided(s, w, Vanish); Settled(s', id) && s'.deliveries[id] == s.deliveries[id]
  {
    assert s.workers[w].job.deliveryId != id;
    SettledCarries(s, Decided(s, w, Vanish), id);
  }

  lemma StepKeepsSettled(s: State, a: Action, id: Symbol)
    requires Inv(s) && Settled(s, id) && !Retries(a, id)
    ensures var s' := Step(s, a); Settled(s', id) && s'.deliveries[id] == s.deliveries[id]
  {
    if a.Work? {
      if Busy(s, a.w) { WorkKeepsSettled(s, a.w, a.answer, id); }
    } else if a.Die? {
      if Busy(s, a.w) { DeathKeepsSettled(s, a.w, id); }
    } else if a.Enqueue? {
      if a.d in s.dispatches && s.dispatches[a.d].stage.Enqueuing? && a.e in s.dispatches[a.d].stage.calls {
        EnqueueKeepsSettled(s, a.d, a.e, a.outcome, id);
      }
    } else if a.Select? || a.Join? || a.Receive? {
      DispatchKeepsSettled(s, a, id);
    } else {
      QueueKeepsSettled(s, a, id);
    }
  }

  ghost predicate NoRetries(actions: seq<Action>, id: Symbol) {
    forall i :: 0 <= i < |actions| ==> !Retries(actions[i], id)
  }

  lemma {:induction false} SettledStays(s: State, actions: seq<Action>, id: Symbol)
    requires Inv(s) && Settled(s, id) && NoRetries(actions, id)
    ensures var s' := Run(Step, s, actions); Settled(s', id) && s'.deliveries[id] == s.deliveries[id]
    decreases |actions|
  {
    if actions != [] {
      var n := |actions| - 1;
      SettledStays(s, actions[..n], id);
      RunsAreGood(s, actions[..n]);
      StepKeepsSettled(Run(Step, s, actions[..n]), actions[n], id);
    }
  }

  // ---------- rows with work left can change ----------

  const OK: Answer := Answer(Succeeds, NeverTried, 0)

  /** The row ends as failed when worker w makes these calls. */
  ghost predicate Fails(s: State, actions: seq<Action>, id: Symbol) {
    id in Run(Step, s, actions).deliveries && Run(Step, s, actions).deliveries[id].status == Failed
  }

  lemma MarkingFails(s: State, w: nat, row: Delivery)
    requires Busy(s, w) && s.workers[w].pc == MarkInactive(row) && row.id in s.deliveries
    ensures Fails(s, [Work(w, OK)] + [], row.id)
  {
    RunCons(Step, s, Work(w, OK), []);
  }

  lemma LookupFails(s: State, w: nat, row: Delivery)
    requires Busy(s, w) && s.workers[w].pc == LoadEndpoint(row) && row.id in s.deliveries
    requires row.endpointId in s.endpoints && !s.endpoints[row.endpointId].isActive
    ensures Fails(s, [Work(w, OK)] + ([Work(w, OK)] + []), row.id)
  {
    MarkingFails(Step(s, Work(w, OK)), w, row);
    RunCons(Step, s, Work(w, OK), [Work(w, OK)] + []);
  }

  lemma LoadingFails(s: State, w: nat, row: Delivery)
    requires Busy(s, w) && s.workers[w].pc == LoadDelivery && s.workers[w].job.deliveryId == row.id
    requires row.id in s.deliveries && s.deliveries[row.id] == row
    requires row.endpointId in s.endpoints && !s.endpoints[row.endpointId].isActive
    ensures Fails(s, [Work(w, OK)] + ([Work(w, OK)] + ([Work(w, OK)] + [])), row.id)
  {
    LookupFails(Step(s, Work(w, OK)), w, row);
    RunCons(Step, s, Work(w, OK), [Work(w, OK)] + ([Work(w, OK)] + []));
  }

  /** A waiting job whose endpoint is switched off ends its row as failed. */
  lemma WaitingJobCanFail(s: State, j: JobId) returns (actions: seq<Action>)
    requires j in s.jobs && s.jobs[j].state == Waiting && j.deliveryId in s.deliveries
    requires s.deliveries[j.deliveryId].id == j.deliveryId
    ensures (forall id :: NoRetries(actions, id)) && Fails(s, actions, j.deliveryId)
  {
    var row := s.deliveries[j.deliveryId];
    var w := AboveAll(s.workers.Keys);
    var off, take := SetEndpoint(row.endpointId, Endpoint(false, {})), Take(w, j);
    var calls := [Work(w, OK)] + ([Work(w, OK)] + ([Work(w, OK)] + []));
    var s0 := Step(s, off);
    LoadingFails(Step(s0, take), w, row);
    RunCons(Step, s0, take, calls);
    RunCons(Step, s, off, [take] + calls);
    actions := [off] + ([take] + calls);
  }

  lemma UnfinishedJobCanFail(s: State, j: JobId) returns (actions: seq<Action>)
    requires Inv(s) && j in s.jobs && !s.jobs[j].Finished()
    ensures (forall id :: NoRetries(actions, id)) && Fails(s, actions, j.deliveryId)
  {
    assert RowOk(s, j.deliveryId);
    if s.jobs[j].state == Waiting {
      actions := WaitingJobCanFail(s, j);
    } else {
      var w := s.jobs[j].state.worker;
      assert Held(s.workers, j, s.jobs[j]);
      var rest := WaitingJobCanFail(Step(s, Die(w)), j);
      RunCons(Step, s, Die(w), rest);
      actions := [Die(w)] + rest;
      forall id ensures NoRetries(actions, id) { assert NoRetries(rest, id); }
    }
  }

  lemma RestlessRowCanFail(s: State, id: Symbol) returns (actions: seq<Action>)
    requires Inv(s) && id in s.deliveries && !Idle(s, id)
    ensures NoRetries(actions, id) && Fails(s, actions, id)
  {
    if j :| j in s.jobs && j.deliveryId == id && !s.jobs[j].Finished() {
      actions := UnfinishedJobCanFail(s, j);
    } else {
      var d, e :| AboutToAdd(s, d, e, id);
      assert RowOk(s, id);
      var rest := WaitingJobCanFail(Step(s, Enqueue(d, e, Succeeds)), Automatic(id));
      RunCons(Step, s, Enqueue(d, e, Succeeds), rest);
      assert NoRetries(rest, id);
      actions := [Enqueue(d, e, Succeeds)] + rest;
    }
  }

  /** The row looks in every continuation without a manual retry as it does now. */
  ghost predicate Final(s: State, id: Symbol)
    requires id in s.deliveries
  {
    forall after :: NoRetries(after, id) ==>
      id in Run(Step, s, after).deliveries && Run(Step, s, after).deliveries[id] == s.deliveries[id]
  }

  /** A terminal status is final exactly when the delivery's jobs have ended. */
  lemma TerminalIsFinalIff(
    deliveryId: (Symbol, Symbol) -> Symbol, owner: Symbol -> Symbol, actions: seq<Action>, id: Symbol)
    requires var s := Reach(deliveryId, owner, actions); id in s.deliveries && s.deliveries[id].status.Terminal()
    ensures var s := Reach(deliveryId, owner, actions); Final(s, id) <==> Idle(s, id)
  {
    var s := Reach(deliveryId, owner, actions);
    ReachableIsGood(deliveryId, owner, actions);
    if Idle(s, id) {
      forall after | NoRetries(after, id)
        ensures id in Run(Step, s, after).deliveries && Run(Step, s, after).deliveries[id] == s.deliveries[id]
      {
        SettledStays(s, after, id);
      }
    } else {
      var after := RestlessRowCanFail(s, id);
    }
  }

  /** A manual retry makes every delivery changeable again, whatever its status. */
  lemma RetryReopens(
    deliveryId: (Symbol, Symbol) -> Symbol, owner: Symbol -> Symbol, before: seq<Action>, id: Symbol, at: int)
    returns (after: seq<Action>)
    requires id in Reach(deliveryId, owner, before).deliveries && Manual(id, at) !in Reach(deliveryId, owner, before).jobs
    ensures after != [] && Retries(after[0], id) && NoRetries(after[1..], id)
    ensures id in Reach(deliveryId, owner, before + after).deliveries
    ensures Reach(deliveryId, owner, before + after).deliveries[id].status == Failed
  {
    var s := Reach(deliveryId, owner, before);
    ReachableIsGood(deliveryId, owner, before);
    var retry := Retry(id, s.deliveries[id].merchantId, at, Succeeds);
    assert RowOk(s, id);
    var rest := WaitingJobCanFail(Step(s, retry), Manual(id, at));
    after := [retry] + rest;
    RunCons(Step, s, retry, rest);
    RunConcat(Step, Init(deliveryId, owner), before, after);
    assert after[1..] == rest;
  }
}
