/** Nobody gets an event that is not meant for them: every delivery goes back to a dispatch of its event
    that found the endpoint there, active, of the event's merchant and subscribed to the event's type. */
module WebhookSelected {
  import opened GoText
  import opened WebhookProtocol
  import opened WebhookInvariant
  import opened WebhookSteps
  import opened WebhookTheorems
  import opened Runs

  /** In this state dispatch d is about to select endpoints for the event, and this endpoint wants it. */
  ghost predicate Wants(s: State, d: nat, event: Event, e: Symbol) {
    && d in s.dispatches && s.dispatches[d] == FanOut(event, Selecting)
    && e in s.endpoints && s.endpoints[e].isActive && s.owner(e) == event.merchantId
    && event.eventType in s.endpoints[e].events
  }

  /** Step i of the run is the selection of dispatch d. */
  ghost predicate SelectedAt(
    deliveryId: (Symbol, Symbol) -> Symbol, owner: Symbol -> Symbol, actions: seq<Action>, i: int, d: nat, event: Event, e: Symbol)
  {
    0 <= i < |actions| && actions[i] == Select(d, Succeeds) && Wants(Reach(deliveryId, owner, actions[..i]), d, event, e)
  }

  ghost predicate WasSelected(
    deliveryId: (Symbol, Symbol) -> Symbol, owner: Symbol -> Symbol, actions: seq<Action>, event: Event, e: Symbol)
  {
    exists i, d :: SelectedAt(deliveryId, owner, actions, i, d, event, e)
  }

  lemma SelectionStays(
    deliveryId: (Symbol, Symbol) -> Symbol, owner: Symbol -> Symbol, before: seq<Action>, a: Action, event: Event, e: Symbol)
    requires WasSelected(deliveryId, owner, before, event, e)
    ensures WasSelected(deliveryId, owner, before + [a], event, e)
  {
    var i, d :| SelectedAt(deliveryId, owner, before, i, d, event, e);
    assert (before + [a])[..i] == before[..i];
    assert SelectedAt(deliveryId, owner, before + [a], i, d, event, e);
  }

  /** The dispatch has a call, or a selected endpoint, of this name. */
  predicate Holds(stage: Stage, e: Symbol) {
    match stage
    case Selecting => false
    case Enqueuing(calls) => e in calls
    case Over(_, selected) => e in selected
  }

  ghost predicate AllSelected(s: State, chosen: (Event, Symbol) -> bool) {
    && (forall d, e :: d in s.dispatches && Holds(s.dispatches[d].stage, e) ==> chosen(s.dispatches[d].event, e))
    && (forall id :: id in s.deliveries ==> chosen(EventOf(s.deliveries[id]), s.deliveries[id].endpointId))
  }

  /** The event of a row, as Kafka delivered it and may deliver it again. */
  function EventOf(row: Delivery): Event {
    Event(row.eventId, row.merchantId, row.eventType, row.payload)
  }

  lemma SameParcelSameEvent(a: Delivery, b: Delivery)
    requires Parcel(a) == Parcel(b)
    ensures EventOf(a) == EventOf(b) && a.endpointId == b.endpointId
  {
    assert EventOf(a) == EventOf(Parcel(a)) && EventOf(b) == EventOf(Parcel(b));
    assert Parcel(a).endpointId == a.endpointId && Parcel(b).endpointId == b.endpointId;
  }

  lemma OthersKeepDispatches(s: State, a: Action)
    requires !a.Receive? && !a.Select? && !a.Enqueue? && !a.Join?
    ensures Step(s, a).dispatches == s.dispatches
  {
    if a.Work? && Busy(s, a.w) { WrittenLeaves(s, a.w, a.answer); }
  }

  lemma EnqueueHolds(s: State, d: nat, e: Symbol, o: Outcome, c: nat, f: Symbol)
    requires d in s.dispatches && s.dispatches[d].stage.Enqueuing? && e in s.dispatches[d].stage.calls
    requires c in EnqueueNext(s, d, e, o).dispatches && Holds(EnqueueNext(s, d, e, o).dispatches[c].stage, f)
    ensures c in s.dispatches && EnqueueNext(s, d, e, o).dispatches[c].event == s.dispatches[c].event
    ensures Holds(s.dispatches[c].stage, f)
  {
  }

  lemma DispatchHolds(s: State, a: Action, d: nat, e: Symbol)
    requires a.Receive? || a.Join?
    requires d in Step(s, a).dispatches && Holds(Step(s, a).dispatches[d].stage, e)
    ensures d in s.dispatches && Step(s, a).dispatches[d].event == s.dispatches[d].event && Holds(s.dispatches[d].stage, e)
  {
  }

  /** Only a selection brings endpoints into a dispatch, and only those that want the event. */
  lemma NewlyHeld(s: State, a: Action, d: nat, e: Symbol)
    requires d in Step(s, a).dispatches && Holds(Step(s, a).dispatches[d].stage, e)
    ensures d in s.dispatches && Step(s, a).dispatches[d].event == s.dispatches[d].event
            && (Holds(s.dispatches[d].stage, e) || (a == Select(d, Succeeds) && Wants(s, d, s.dispatches[d].event, e)))
  {
    if a.Enqueue? {
      if a.d in s.dispatches && s.dispatches[a.d].stage.Enqueuing? && a.e in s.dispatches[a.d].stage.calls {
        EnqueueHolds(s, a.d, a.e, a.outcome, d, e);
      }
    } else if a.Receive? || a.Join? {
      DispatchHolds(s, a, d, e);
    } else if !a.Select? {
      OthersKeepDispatches(s, a);
    }
  }

  lemma WorkMakesNoRow(s: State, w: nat, a: Answer, id: Symbol)
    requires Busy(s, w) && id in Written(s, w, a).deliveries
    ensures id in s.deliveries
  {
  }

  /** A new row is made by the call of a dispatch for that endpoint. */
  lemma NewRow(s: State, a: Action, id: Symbol)
    requires id !in s.deliveries && id in Step(s, a).deliveries
    ensures a.Enqueue? && a.d in s.dispatches && Holds(s.dispatches[a.d].stage, a.e)
    ensures EventOf(Step(s, a).deliveries[id]) == s.dispatches[a.d].event && Step(s, a).deliveries[id].endpointId == a.e
  {
    if a.Work? && Busy(s, a.w) { WorkMakesNoRow(s, a.w, a.answer, id); }
  }

  lemma StepSelects(s: State, a: Action, before: (Event, Symbol) -> bool, after: (Event, Symbol) -> bool)
    requires Inv(s) && AllSelected(s, before)
    requires forall event, e :: before(event, e) ==> after(event, e)
    requires forall d, event, e :: a == Select(d, Succeeds) && Wants(s, d, event, e) ==> after(event, e)
    ensures AllSelected(Step(s, a), after)
  {
    var s' := Step(s, a);
    StepKeepsInvariant(s, a);
    forall d, e | d in s'.dispatches && Holds(s'.dispatches[d].stage, e) ensures after(s'.dispatches[d].event, e) {
      NewlyHeld(s, a, d, e);
    }
    forall id | id in s'.deliveries ensures after(EventOf(s'.deliveries[id]), s'.deliveries[id].endpointId) {
      if id in s.deliveries {
        SameParcelSameEvent(s.deliveries[id], s'.deliveries[id]);
      } else {
        NewRow(s, a, id);
      }
    }
  }

  ghost function Chosen(deliveryId: (Symbol, Symbol) -> Symbol, owner: Symbol -> Symbol, actions: seq<Action>): (Event, Symbol) -> bool {
    (event, e) => WasSelected(deliveryId, owner, actions, event, e)
  }

  lemma {:induction false} EverySelectionIsMeant(
    deliveryId: (Symbol, Symbol) -> Symbol, owner: Symbol -> Symbol, actions: seq<Action>)
    ensures AllSelected(Reach(deliveryId, owner, actions), Chosen(deliveryId, owner, actions))
    decreases |actions|
  {
    if actions != [] {
      var n := |actions| - 1;
      var before, a := actions[..n], actions[n];
      assert before + [a] == actions;
      EverySelectionIsMeant(deliveryId, owner, before);
      ReachableIsGood(deliveryId, owner, before);
      forall event, e | Chosen(deliveryId, owner, before)(event, e) ensures Chosen(deliveryId, owner, actions)(event, e) {
        SelectionStays(deliveryId, owner, before, a, event, e);
      }
      forall d, event, e | a == Select(d, Succeeds) && Wants(Reach(deliveryId, owner, before), d, event, e)
        ensures Chosen(deliveryId, owner, actions)(event, e)
      {
        assert SelectedAt(deliveryId, owner, actions, n, d, event, e);
      }
      StepSelects(Reach(deliveryId, owner, before), a, Chosen(deliveryId, owner, before), Chosen(deliveryId, owner, actions));
    }
  }

  /** Every delivery of every reachable state was selected by a dispatch of its event, at a step that
      found its endpoint there, active, owned by the event's merchant and subscribed to its type. */
  lemma DeliveriesWereWanted(
    deliveryId: (Symbol, Symbol) -> Symbol, owner: Symbol -> Symbol, actions: seq<Action>, id: Symbol)
    requires id in Reach(deliveryId, owner, actions).deliveries
    ensures var row := Reach(deliveryId, owner, actions).deliveries[id];
            WasSelected(deliveryId, owner, actions, Event(row.eventId, row.merchantId, row.eventType, row.payload), row.endpointId)
  {
    EverySelectionIsMeant(deliveryId, owner, actions);
    assert Chosen(deliveryId, owner, actions)(
        EventOf(Reach(deliveryId, owner, actions).deliveries[id]), Reach(deliveryId, owner, actions).deliveries[id].endpointId);
  }
}
