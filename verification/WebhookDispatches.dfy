/** Why a dispatch throws: over every run one that has failed had a call of its own fail, or found its
    endpoint gone. */
module WebhookDispatches {
  import opened GoText
  import opened WebhookProtocol
  import opened WebhookSteps
  import opened WebhookSelected
  import opened Runs

  /** Dispatch d has an enqueue call for endpoint e that makes the call pc next. */
  predicate Enqueues(s: State, d: nat, e: Symbol, pc: EnqueuePc) {
    && d in s.dispatches && s.dispatches[d].stage.Enqueuing?
    && e in s.dispatches[d].stage.calls && s.dispatches[d].stage.calls[e] == pc
  }

  /** The call of dispatch d that failed: the selection, the creation of a row, whose endpoint may be gone,
      or the adding of a job. */
  predicate FailsCall(s: State, a: Action, d: nat) {
    match a
    case Select(c, o) => c == d && o != Succeeds && d in s.dispatches && s.dispatches[d].stage.Selecting?
    case Enqueue(c, e, o) =>
      && c == d
      && ((o != Succeeds && (Enqueues(s, d, e, ToCreate) || Enqueues(s, d, e, ToAdd)))
          || (Enqueues(s, d, e, ToCreate) && e !in s.endpoints && s.deliveryId(e, s.dispatches[d].event.id) !in s.deliveries))
    case _ => false
  }

  /** The dispatch has thrown, or one of its calls has. */
  predicate Failing(s: State, d: nat) {
    && d in s.dispatches
    && match s.dispatches[d].stage
       case Selecting => false
       case Enqueuing(calls) => exists e | e in calls :: calls[e] == Settled(false)
       case Over(ok, _) => !ok
  }

  /** Once its calls are settled a dispatch returns normally exactly if all of them succeeded. */
  lemma JoinsAllOrThrows(s: State, d: nat)
    requires d in s.dispatches && s.dispatches[d].stage.Enqueuing? && AllSettled(s.dispatches[d].stage.calls)
    ensures var calls, s' := s.dispatches[d].stage.calls, Step(s, Join(d));
            && d in s'.dispatches && s'.dispatches[d].stage.Over? && s'.dispatches[d].stage.selected == calls.Keys
            && (s'.dispatches[d].stage.ok <==> !Failing(s, d))
  {
    var calls := s.dispatches[d].stage.calls;
    assert forall e :: e in calls ==> calls[e] == Settled(true) || calls[e] == Settled(false);
  }

  lemma EnqueueFails(s: State, d: nat, e: Symbol, o: Outcome, c: nat)
    requires d in s.dispatches && s.dispatches[d].stage.Enqueuing? && e in s.dispatches[d].stage.calls
    requires !Failing(s, c) && Failing(EnqueueNext(s, d, e, o), c)
    ensures FailsCall(s, Enqueue(d, e, o), c)
  {
    var s' := EnqueueNext(s, d, e, o);
    if c == d {
      var f :| f in s'.dispatches[d].stage.calls && s'.dispatches[d].stage.calls[f] == Settled(false);
      assert f == e;
    }
  }

  lemma FailingStep(s: State, a: Action, d: nat)
    requires !Failing(s, d) && Failing(Step(s, a), d)
    ensures FailsCall(s, a, d)
  {
    if a.Enqueue? {
      if a.d in s.dispatches && s.dispatches[a.d].stage.Enqueuing? && a.e in s.dispatches[a.d].stage.calls {
        EnqueueFails(s, a.d, a.e, a.outcome, d);
      }
    } else if a.Join? && a.d == d {
      if d in s.dispatches && s.dispatches[d].stage.Enqueuing? && AllSettled(s.dispatches[d].stage.calls) {
        JoinsAllOrThrows(s, d);
      }
    } else if !a.Receive? && !a.Select? && !a.Join? {
      OthersKeepDispatches(s, a);
    }
  }

  ghost predicate FailsAt(
    deliveryId: (Symbol, Symbol) -> Symbol, owner: Symbol -> Symbol, actions: seq<Action>, d: nat, i: int)
  {
    0 <= i < |actions| && FailsCall(Reach(deliveryId, owner, actions[..i]), actions[i], d)
  }

  /** A dispatch that has thrown, or is going to because one of its calls has, had a call fail. */
  lemma {:induction false} FailedDispatchHasReason(
    deliveryId: (Symbol, Symbol) -> Symbol, owner: Symbol -> Symbol, actions: seq<Action>, d: nat) returns (i: nat)
    requires Failing(Reach(deliveryId, owner, actions), d)
    ensures FailsAt(deliveryId, owner, actions, d, i)
    decreases |actions|
  {
    var n := |actions| - 1;
    var before := actions[..n];
    if Failing(Reach(deliveryId, owner, before), d) {
      i := FailedDispatchHasReason(deliveryId, owner, before, d);
      assert before[..i] == actions[..i];
    } else {
      i := n;
      FailingStep(Reach(deliveryId, owner, before), actions[n], d);
    }
  }
}
