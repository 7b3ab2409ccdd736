/** The webhook service as it is written: the consumer that fans an event out, the service that
    creates rows and jobs, and the processor that works a job off. Other consumers, workers and users
    act between any two calls. Every method is proved to be a part of a run of the webhook protocol. */
module WebhookService {
  import opened GoText
  import opened WebhookProtocol
  import opened Runs
  import opened Sums
  import WI = WebhookInvariant
  import WS = WebhookSteps
  import WT = WebhookTheorems
  import WD = WebhookDispatches
  import WL = WebhookLost
  import WV = WebhookVerdicts

  datatype Actor = Nobody | Consumer(d: nat) | WorkerNo(w: nat)

  predicate Moves(a: Action, actor: Actor) {
    match actor
    case Nobody => false
    case Consumer(d) => (a.Receive? || a.Select? || a.Enqueue? || a.Join?) && a.d == d
    case WorkerNo(w) => (a.Take? || a.Work? || a.Die?) && a.w == w
  }

  /** A worker keeps its place and its job. */
  ghost predicate SamePosition(actor: Actor, s: State, s': State) {
    match actor
    case Nobody => true
    case Consumer(d) => d in s.dispatches && d in s'.dispatches && s'.dispatches[d] == s.dispatches[d]
    case WorkerNo(w) =>
      && w in s.workers && w in s'.workers && s'.workers[w] == s.workers[w]
      && var j := s.workers[w].job; j in s.jobs && j in s'.jobs && s'.jobs[j] == s.jobs[j]
  }

  /** The lock keeps a worker's job from other workers. */
  lemma OtherWorkerKeeps(actor: Actor, s: State, w: nat, v: Verdict)
    requires SamePosition(actor, s, s) && actor.WorkerNo? && actor.w != w
    requires WI.WorkerOk(s, actor.w, s.workers[actor.w]) && w in s.workers && WI.WorkerOk(s, w, s.workers[w])
    ensures SamePosition(actor, s, Decided(s, w, v))
  {
  }

  /** So does the queue, which hands out waiting jobs only. */
  lemma TakeKeeps(actor: Actor, s: State, w: nat, j: JobId)
    requires SamePosition(actor, s, s) && actor.WorkerNo? && actor.w != w
    requires WI.WorkerOk(s, actor.w, s.workers[actor.w])
    ensures SamePosition(actor, s, Step(s, Take(w, j)))
  {
  }

  lemma CallKeeps(actor: Actor, s: State, a: Action)
    requires WI.Inv(s) && SamePosition(actor, s, s) && actor.WorkerNo? && !Moves(a, actor)
    requires (a.Work? || a.Die?) && Busy(s, a.w)
    ensures SamePosition(actor, s, Step(s, a))
  {
    assert WI.WorkerOk(s, actor.w, s.workers[actor.w]) && WI.WorkerOk(s, a.w, s.workers[a.w]);
    if a.Work? {
      OtherWorkerKeepsThroughWrite(actor, s, a.w, a.answer);
    } else {
      OtherWorkerKeeps(actor, s, a.w, Vanish);
    }
  }

  lemma OtherWorkerKeepsThroughWrite(actor: Actor, s: State, w: nat, a: Answer)
    requires SamePosition(actor, s, s) && actor.WorkerNo? && actor.w != w
    requires WI.WorkerOk(s, actor.w, s.workers[actor.w]) && w in s.workers && WI.WorkerOk(s, w, s.workers[w])
    ensures SamePosition(actor, s, WorkNext(s, w, a))
  {
    WS.WrittenLeaves(s, w, a);
  }

  lemma ConsumerKeeps(actor: Actor, s: State, a: Action)
    requires SamePosition(actor, s, s) && actor.Consumer? && !Moves(a, actor)
    ensures SamePosition(actor, s, Step(s, a))
  {
    if a.Work? && Busy(s, a.w) { WS.WrittenLeaves(s, a.w, a.answer); }
  }

  lemma StepKeepsOthers(actor: Actor, s: State, a: Action)
    requires WI.Inv(s) && SamePosition(actor, s, s) && !Moves(a, actor)
    ensures SamePosition(actor, s, Step(s, a))
  {
    if actor.Consumer? {
      ConsumerKeeps(actor, s, a);
    } else if actor.WorkerNo? {
      if a.Take? {
        assert WI.WorkerOk(s, actor.w, s.workers[actor.w]);
        TakeKeeps(actor, s, a.w, a.job);
      } else if (a.Work? || a.Die?) && Busy(s, a.w) {
        CallKeeps(actor, s, a);
      } else {
        WT.QuietWrites(s, a, s.workers[actor.w].job);
      }
    }
  }

  lemma {:induction false} OthersKeepPosition(actor: Actor, s: State, actions: seq<Action>)
    requires WI.Inv(s) && SamePosition(actor, s, s)
    requires forall a :: a in actions ==> !Moves(a, actor)
    ensures SamePosition(actor, s, Run(Step, s, actions))
    decreases |actions|
  {
    if actions != [] {
      var n := |actions| - 1;
      OthersKeepPosition(actor, s, actions[..n]);
      WT.RunsAreGood(s, actions[..n]);
      assert actions[n] in actions;
      StepKeepsOthers(actor, Run(Step, s, actions[..n]), actions[n]);
    }
  }

  /** process is about to run its catch block for this row. */
  predicate IsCatch(pc: WorkerPc, job: Job, row: Delivery) {
    (pc.MarkFailed? || pc.MarkDead?) && pc == Catch(job, row, pc.cause)
  }

  /** A run that others make leads to a state in which this actor stands where it stood. */
  lemma OthersRun(
    actor: Actor, deliveryId: (Symbol, Symbol) -> Symbol, owner: Symbol -> Symbol, before: seq<Action>, more: seq<Action>)
    requires SamePosition(actor, Reach(deliveryId, owner, before), Reach(deliveryId, owner, before))
    requires forall a :: a in more ==> !Moves(a, actor)
    ensures var s, s' := Reach(deliveryId, owner, before), Run(Step, Reach(deliveryId, owner, before), more);
            && s' == Reach(deliveryId, owner, before + more) && SamePosition(actor, s, s')
            && s'.deliveryId == deliveryId && s'.owner == owner
  {
    WT.Later(deliveryId, owner, before, more);
    WT.ReachableIsGood(deliveryId, owner, before + more);
    OthersKeepPosition(actor, Reach(deliveryId, owner, before), more);
  }

  function Unsettled(calls: map<Symbol, EnqueuePc>): set<Symbol> {
    set e | e in calls && !calls[e].Settled?
  }

  function Uncreated(calls: map<Symbol, EnqueuePc>): set<Symbol> {
    set e | e in calls && calls[e] == ToCreate
  }

  lemma CallsShrink(calls: map<Symbol, EnqueuePc>, e: Symbol, pc: EnqueuePc)
    requires e in calls && !calls[e].Settled? && pc != ToCreate && (calls[e] == ToAdd ==> pc.Settled?)
    ensures var after := calls[e := pc];
            |Uncreated(after)| < |Uncreated(calls)|
            || (|Uncreated(after)| == |Uncreated(calls)| && |Unsettled(after)| < |Unsettled(calls)|)
  {
    var after := calls[e := pc];
    if calls[e] == ToCreate {
      assert Uncreated(after) == Uncreated(calls) - {e} && e in Uncreated(calls);
    } else {
      assert Uncreated(after) == Uncreated(calls);
      assert Unsettled(after) == Unsettled(calls) - {e} && e in Unsettled(calls);
    }
  }

  /** What enqueue's upsert does: it adds the row or nothing, and where enqueue goes on depends on the row. */
  ghost predicate RowCreated(s: State, next: State, d: nat, e: Symbol, o: Outcome, pc: EnqueuePc)
    requires WD.Enqueues(s, d, e, ToCreate)
  {
    var event := s.dispatches[d].event;
    var id, rows := s.deliveryId(e, event.id), next.deliveries;
    && next == WithCall(s.(deliveries := rows), d, e, pc)
    && (id in s.deliveries || e !in s.endpoints || o == FailsBefore ==> rows == s.deliveries)
    && (id !in s.deliveries && e in s.endpoints && o != FailsBefore ==> rows == s.deliveries[id := NewDelivery(id, e, event)])
    && (pc == Settled(true) <==> o == Succeeds && id in rows && rows[id].status in {Delivered, Dead})
    && (pc == ToAdd <==> o == Succeeds && id in rows && rows[id].status !in {Delivered, Dead})
  }

  lemma CreateCall(s: State, d: nat, e: Symbol, o: Outcome)
    requires WD.Enqueues(s, d, e, ToCreate)
    ensures var id := s.deliveryId(e, s.dispatches[d].event.id);
            RowCreated(s, Step(s, Enqueue(d, e, o)), d, e, o, AfterCreate(Upserted(s, id, e, s.dispatches[d].event, o), id, o))
  {
  }

  /** What adding the job does: the new job under a new id, nothing under an old one. */
  ghost predicate JobAdded(s: State, next: State, d: nat, e: Symbol, o: Outcome)
    requires WD.Enqueues(s, d, e, ToAdd)
  {
    var j := Automatic(s.deliveryId(e, s.dispatches[d].event.id));
    && next == WithCall(s.(jobs := next.jobs), d, e, Settled(o == Succeeds))
    && (j in s.jobs || o == FailsBefore ==> next.jobs == s.jobs)
    && (j !in s.jobs && o != FailsBefore ==> next.jobs == s.jobs[j := Job(Waiting, 0, 0, 0)])
  }

  lemma AddCall(s: State, d: nat, e: Symbol, o: Outcome)
    requires WD.Enqueues(s, d, e, ToAdd)
    ensures JobAdded(s, Step(s, Enqueue(d, e, o)), d, e, o)
  {
  }

  datatype RetryResult = Queued | UnknownDelivery | RetryFailed

  class WebhookService {
    const deliveryId: (Symbol, Symbol) -> Symbol
    const owner: Symbol -> Symbol
    var endpoints: map<Symbol, Endpoint>
    var deliveries: map<Symbol, Delivery>
    var letters: map<Symbol, Letter>
    var posted: set<Symbol>
    var jobs: map<JobId, Job>
    // Where each dispatch and each worker stands, and the run all of them make up.
    var dispatches: map<nat, FanOut>
    var workers: map<nat, Worker>
    ghost var trace: seq<Action>

    constructor (deliveryId: (Symbol, Symbol) -> Symbol, owner: Symbol -> Symbol)
      ensures Valid() && trace == [] && World() == Init(deliveryId, owner)
    {
      this.deliveryId, this.owner := deliveryId, owner;
      endpoints, deliveries, letters, posted, jobs, dispatches, workers, trace := map[], map[], map[], {}, map[], map[], map[], [];
    }

    function World(): State
      reads this
    {
      State(deliveryId, owner, endpoints, deliveries, letters, posted, jobs, dispatches, workers)
    }

    ghost predicate Valid()
      reads this
    {
      World() == Reach(deliveryId, owner, trace)
    }

    /** Others make any number of steps. */
    method Others(actor: Actor)
      requires Valid() && SamePosition(actor, World(), World())
      modifies this
      ensures Valid() && old(trace) <= trace && SamePosition(actor, old(World()), World())
    {
      var more: seq<Action> := *;
      if forall a | a in more :: !Moves(a, actor) {
        var s := Run(Step, World(), more);
        OthersRun(actor, deliveryId, owner, trace, more);
        endpoints, deliveries, letters, posted, jobs := s.endpoints, s.deliveries, s.letters, s.posted, s.jobs;
        dispatches, workers := s.dispatches, s.workers;
        assert World() == s;
        trace := trace + more;
      }
    }

    /** The step just made is recorded, and others go on. */
    method Yield(actor: Actor, ghost s: State, ghost a: Action)
      requires s == Reach(deliveryId, owner, trace) && World() == Step(s, a)
      requires SamePosition(actor, World(), World())
      modifies this
      ensures Valid() && old(trace) + [a] <= trace && SamePosition(actor, old(World()), World())
    {
      ghost var one := [a];
      assert (trace + one)[..|trace|] == trace;
      trace := trace + one;
      Others(actor);
    }

    // ---------- the consumer ----------

    ghost predicate Dispatching(d: nat, event: Event, stage: Stage)
      reads this
    {
      d in dispatches && dispatches[d] == FanOut(event, stage)
    }

    method SetStage(d: nat, event: Event, stage: Stage, ghost s: State, ghost a: Action)
      requires s == Reach(deliveryId, owner, trace)
      requires World().(dispatches := dispatches[d := FanOut(event, stage)]) == Step(s, a)
      modifies this
      ensures Valid() && old(trace) + [a] <= trace && Dispatching(d, event, stage)
    {
      dispatches := dispatches[d := FanOut(event, stage)];
      Yield(Consumer(d), s, a);
    }

    /** dispatch begins: an event without a merchant is dropped. */
    method Begin(d: nat, event: Event) returns (dropped: bool)
      requires Valid() && d !in dispatches
      modifies this
      ensures Valid() && old(trace) <= trace && dropped == (event.merchantId == 0)
      ensures Dispatching(d, event, if dropped then Over(true, {}) else Selecting)
    {
      dropped := event.merchantId == 0;
      SetStage(d, event, if dropped then Over(true, {}) else Selecting, World(), Receive(d, event));
    }

    /** findActiveForEvent */
    method FindActiveForEvent(d: nat, event: Event) returns (ok: bool, found: set<Symbol>)
      requires Valid() && Dispatching(d, event, Selecting)
      modifies this
      ensures Valid() && old(trace) <= trace
      ensures forall e :: e in found <==>
                && ok && e in old(endpoints) && owner(e) == event.merchantId
                && old(endpoints)[e].isActive && event.eventType in old(endpoints)[e].events
      ensures Dispatching(d, event, if found == {} then Over(ok, {}) else Enqueuing(map e | e in found :: ToCreate))
    {
      var o: Outcome := *;
      ok := o == Succeeds;
      found := if ok then set e | e in endpoints && owner(e) == event.merchantId
                                  && endpoints[e].isActive && event.eventType in endpoints[e].events
               else {};
      assert Subscribed(World(), event) == set e | e in endpoints && owner(e) == event.merchantId
                                  && endpoints[e].isActive && event.eventType in endpoints[e].events;
      SetStage(d, event, if found == {} then Over(ok, {}) else Enqueuing(map e | e in found :: ToCreate), World(), Select(d, o));
    }

    /** The first call of enqueue: the row is created unless it exists, and an existing one is left as
        it is, whatever its status. Then enqueue is done if the row is terminal. */
    method CreateRow(d: nat, event: Event, e: Symbol, calls: map<Symbol, EnqueuePc>) returns (pc: EnqueuePc, ghost o: Outcome)
      requires Valid() && Dispatching(d, event, Enqueuing(calls)) && e in calls && calls[e] == ToCreate
      modifies this
      ensures Valid() && old(trace) + [Enqueue(d, e, o)] <= trace && pc != ToCreate
      ensures Dispatching(d, event, Enqueuing(calls[e := pc]))
      ensures RowCreated(old(World()), Reach(deliveryId, owner, old(trace) + [Enqueue(d, e, o)]), d, e, o, pc)
    {
      ghost var s, before := World(), trace;
      var id := deliveryId(e, event.id);
      var outcome: Outcome := *;
      o := outcome;
      if outcome != FailsBefore && id !in deliveries && e in endpoints {
        deliveries := deliveries[id := Delivery(id, e, event.merchantId, event.id, event.eventType, event.payload, Pending, 0, NeverTried)];
      }
      if outcome != Succeeds || id !in deliveries {
        pc := Settled(false);
      } else if deliveries[id].status == Delivered || deliveries[id].status == Dead {
        pc := Settled(true);
      } else {
        pc := ToAdd;
      }
      CreateCall(s, d, e, o);
      RunSnoc(Step, Init(deliveryId, owner), before, Enqueue(d, e, o));
      SetStage(d, event, Enqueuing(calls[e := pc]), s, Enqueue(d, e, o));
    }

    /** The second call of enqueue: adding a job under an id that exists does nothing. */
    method AddAutomaticJob(d: nat, event: Event, e: Symbol, calls: map<Symbol, EnqueuePc>) returns (ok: bool, ghost o: Outcome)
      requires Valid() && Dispatching(d, event, Enqueuing(calls)) && e in calls && calls[e] == ToAdd
      modifies this
      ensures Valid() && old(trace) + [Enqueue(d, e, o)] <= trace && Dispatching(d, event, Enqueuing(calls[e := Settled(ok)]))
      ensures JobAdded(old(World()), Reach(deliveryId, owner, old(trace) + [Enqueue(d, e, o)]), d, e, o) && ok == (o == Succeeds)
    {
      ghost var s, before := World(), trace;
      var id := deliveryId(e, event.id);
      var outcome: Outcome := *;
      o := outcome;
      ok := outcome == Succeeds;
      if outcome != FailsBefore && Automatic(id) !in jobs {
        jobs := jobs[Automatic(id) := Job(Waiting, 0, 0, 0)];
      }
      AddCall(s, d, e, o);
      RunSnoc(Step, Init(deliveryId, owner), before, Enqueue(d, e, o));
      SetStage(d, event, Enqueuing(calls[e := Settled(ok)]), s, Enqueue(d, e, o));
    }

    method NextCall(d: nat, event: Event, e: Symbol, calls: map<Symbol, EnqueuePc>) returns (pc: EnqueuePc)
      requires Valid() && Dispatching(d, event, Enqueuing(calls)) && e in calls && !calls[e].Settled?
      modifies this
      ensures Valid() && old(trace) <= trace && Dispatching(d, event, Enqueuing(calls[e := pc]))
      ensures pc != ToCreate && (calls[e] == ToAdd ==> pc.Settled?)
    {
      if calls[e] == ToCreate {
        ghost var o;
        pc, o := CreateRow(d, event, e, calls);
      } else {
        var ok; ghost var o;
        ok, o := AddAutomaticJob(d, event, e, calls);
        pc := Settled(ok);
      }
    }

    /** The enqueue calls of a dispatch run side by side: any of them makes the next call. */
    method EnqueueAll(d: nat, event: Event, selected: set<Symbol>) returns (calls: map<Symbol, EnqueuePc>)
      requires Valid() && Dispatching(d, event, Enqueuing(map e | e in selected :: ToCreate))
      modifies this
      ensures Valid() && old(trace) <= trace && Dispatching(d, event, Enqueuing(calls))
      ensures calls.Keys == selected && AllSettled(calls)
    {
      calls := map e | e in selected :: ToCreate;
      while Unsettled(calls) != {}
        invariant Valid() && old(trace) <= trace && Dispatching(d, event, Enqueuing(calls))
        invariant calls.Keys == selected
        decreases |Uncreated(calls)|, |Unsettled(calls)|
      {
        ghost var one := AnElement(Unsettled(calls));
        var e :| e in Unsettled(calls);
        var pc := NextCall(d, event, e, calls);
        CallsShrink(calls, e, pc);
        calls := calls[e := pc];
      }
      assert forall e :: e in calls && !calls[e].Settled? ==> e in Unsettled(calls);
    }

    /** dispatch. When it returns normally, every endpoint selected has its row, and there was the moment
        at which the delivery was terminal or queued exactly if it was not lost already. It throws only if
        one of its calls failed, or found its endpoint gone. */
    method Dispatch(d: nat, event: Event) returns (ok: bool, selected: set<Symbol>)
      requires Valid() && d !in dispatches
      modifies this
      ensures Valid() && old(trace) <= trace && d in dispatches && dispatches[d].event == event
      ensures dispatches[d].stage.Over? && dispatches[d].stage.ok == ok
      ensures ok && event.merchantId != 0 ==> dispatches[d].stage.selected == selected
      ensures ok ==> forall e :: e in dispatches[d].stage.selected ==>
                       deliveryId(e, event.id) in deliveries && WL.EnqueuedIn(deliveryId, owner, trace, d, e)
      ensures !ok ==> exists i :: WD.FailsAt(deliveryId, owner, trace, d, i)
    {
      var dropped := Begin(d, event);
      ok, selected := true, {};
      if !dropped {
        ok, selected := FindActiveForEvent(d, event);
        if selected != {} {
          ok := SettleAll(d, event, selected);
        }
      }
      WT.ReachableIsGood(deliveryId, owner, trace);
      if ok {
        EverySelectedIsEnqueued(d);
      } else {
        ghost var i := WD.FailedDispatchHasReason(deliveryId, owner, trace, d);
      }
    }

    lemma EverySelectedIsEnqueued(d: nat)
      requires Valid() && WI.Inv(World()) && d in dispatches && dispatches[d].stage.Over? && dispatches[d].stage.ok
      ensures forall e :: e in dispatches[d].stage.selected ==>
                deliveryId(e, dispatches[d].event.id) in deliveries && WL.EnqueuedIn(deliveryId, owner, trace, d, e)
    {
      assert WI.DispatchOk(World(), World().dispatches[d]);
      forall e | e in dispatches[d].stage.selected
        ensures deliveryId(e, dispatches[d].event.id) in deliveries && WL.EnqueuedIn(deliveryId, owner, trace, d, e)
      {
        assert WI.CallOk(World(), dispatches[d].event, e, Settled(true));
        var i := WL.ReturnServesIff(deliveryId, owner, trace, d, e);
      }
    }

    method SettleAll(d: nat, event: Event, selected: set<Symbol>) returns (ok: bool)
      requires Valid() && Dispatching(d, event, Enqueuing(map e | e in selected :: ToCreate))
      modifies this
      ensures Valid() && old(trace) <= trace && Dispatching(d, event, Over(ok, selected))
    {
      var calls := EnqueueAll(d, event, selected);
      ok := forall e | e in calls :: calls[e] == Settled(true);
      SetStage(d, event, Over(ok, selected), World(), Join(d));
    }

    // ---------- the processor ----------

    /** Worker w has the job in hand and makes the call pc next. */
    ghost predicate At(w: nat, j: JobId, job: Job, pc: WorkerPc)
      reads this
    {
      w in workers && workers[w] == Worker(j, pc) && j in jobs && jobs[j] == job
    }

    /** The call of process that was just made leads to this verdict. */
    method Proceed(w: nat, j: JobId, job: Job, v: Verdict, ghost s: State, ghost a: Answer)
      requires s == Reach(deliveryId, owner, trace) && Busy(s, w) && s.workers[w].job == j && s.jobs[j] == job
      requires World() == Written(s, w, a) && v == VerdictOf(s, w, a)
      modifies this
      ensures Valid() && old(trace) + [Work(w, a)] <= trace
      ensures v.GoOn? ==> At(w, j, job, v.pc)
      ensures j in jobs && WI.JobEvolves(JobAfter(job, v), jobs[j])
    {
      WS.WrittenLeaves(s, w, a);
      ghost var done := trace + [Work(w, a)];
      assert done[..|trace|] == trace;
      if v.GoOn? {
        workers := workers[w := Worker(j, v.pc)];
        Yield(WorkerNo(w), s, Work(w, a));
      } else {
        jobs, workers := jobs[j := JobAfter(job, v)], workers - {w};
        Yield(Nobody, s, Work(w, a));
      }
      WT.Onwards(deliveryId, owner, done, trace);
    }

    method FindDelivery(w: nat, j: JobId, job: Job) returns (v: Verdict)
      requires Valid() && At(w, j, job, LoadDelivery)
      modifies this
      ensures Valid() && old(trace) <= trace && j in jobs && WI.JobEvolves(JobAfter(job, v), jobs[j])
      ensures v.GoOn? ==> v.pc.LoadEndpoint? && At(w, j, job, v.pc)
    {
      var o: Outcome := *;
      if o == DiesAfter {
        v := Vanish;
      } else if o != Succeeds {
        v := Raise;
      } else if j.deliveryId !in deliveries {
        v := Return(NotFound);
      } else {
        v := GoOn(LoadEndpoint(deliveries[j.deliveryId]));
      }
      Proceed(w, j, job, v, World(), Answer(o, NeverTried, 0));
    }

    method FindEndpoint(w: nat, j: JobId, job: Job, row: Delivery) returns (v: Verdict)
      requires Valid() && At(w, j, job, LoadEndpoint(row))
      modifies this
      ensures Valid() && old(trace) <= trace && j in jobs && WI.JobEvolves(JobAfter(job, v), jobs[j])
      ensures v.GoOn? ==> v.pc in {Post(row), MarkInactive(row)} && At(w, j, job, v.pc)
    {
      var o: Outcome := *;
      if o == DiesAfter {
        v := Vanish;
      } else if o != Succeeds {
        v := Raise;
      } else if row.endpointId !in endpoints || !endpoints[row.endpointId].isActive {
        v := GoOn(MarkInactive(row));
      } else {
        v := GoOn(Post(row));
      }
      Proceed(w, j, job, v, World(), Answer(o, NeverTried, 0));
    }

    /** The update behind markDelivered and markFailed. */
    method UpdateRow(id: Symbol, status: Status, note: Note) returns (o: Outcome)
      modifies this`deliveries
      ensures deliveries == Marked(old(deliveries), id, status, note, o)
    {
      o := *;
      if o != FailsBefore && id in deliveries {
        deliveries := deliveries[id := deliveries[id].(status := status, note := note, attemptCount := deliveries[id].attemptCount + 1)];
      }
    }

    method Discard(w: nat, j: JobId, job: Job, row: Delivery) returns (v: Verdict)
      requires Valid() && At(w, j, job, MarkInactive(row))
      modifies this
      ensures Valid() && old(trace) <= trace && j in jobs && WI.JobEvolves(JobAfter(job, v), jobs[j]) && !v.GoOn?
    {
      ghost var s := World();
      var o := UpdateRow(row.id, Failed, EndpointInactive);
      v := if o == DiesAfter then Vanish else if o == Succeeds then Return(Discarded) else Raise;
      Proceed(w, j, job, v, s, Answer(o, NeverTried, 0));
    }

    method PostTo(w: nat, j: JobId, job: Job, row: Delivery) returns (v: Verdict)
      requires Valid() && At(w, j, job, Post(row))
      modifies this
      ensures Valid() && old(trace) <= trace && j in jobs && WI.JobEvolves(JobAfter(job, v), jobs[j])
      ensures v.GoOn? ==> ((v.pc.MarkDelivered? && v.pc.row == row) || IsCatch(v.pc, job, row)) && At(w, j, job, v.pc)
      ensures !v.GoOn? ==> v == Vanish
    {
      ghost var s := World();
      var o: Outcome := *;
      var note: Note := *;
      if o == Succeeds {
        posted := posted + {row.id};
      }
      if o == DiesAfter {
        v := Vanish;
      } else if o == Succeeds {
        v := GoOn(MarkDelivered(row, note));
      } else {
        v := GoOn(Catch(job, row, note));
      }
      Proceed(w, j, job, v, s, Answer(o, note, 0));
    }

    method RecordDelivered(w: nat, j: JobId, job: Job, row: Delivery, response: Note) returns (v: Verdict)
      requires Valid() && At(w, j, job, MarkDelivered(row, response))
      modifies this
      ensures Valid() && old(trace) <= trace && j in jobs && WI.JobEvolves(JobAfter(job, v), jobs[j])
      ensures v.GoOn? ==> IsCatch(v.pc, job, row) && At(w, j, job, v.pc)
      ensures !v.GoOn? ==> v in {Vanish, Return(Posted)}
    {
      ghost var s := World();
      var o := UpdateRow(row.id, Delivered, response);
      var error: Note := *;
      v := if o == DiesAfter then Vanish else if o == Succeeds then Return(Posted) else GoOn(Catch(job, row, error));
      Proceed(w, j, job, v, s, Answer(o, error, 0));
    }

    method RecordFailed(w: nat, j: JobId, job: Job, row: Delivery, cause: Note) returns (v: Verdict, ghost a: Answer)
      requires Valid() && At(w, j, job, MarkFailed(row, cause))
      modifies this
      ensures Valid() && old(trace) + [Work(w, a)] <= trace && j in jobs && WI.JobEvolves(JobAfter(job, v), jobs[j])
      ensures v == if a.outcome == DiesAfter then Vanish else Raise
      ensures WV.RowMarked(old(World()), Reach(deliveryId, owner, old(trace) + [Work(w, a)]), row.id, Failed, cause, a.outcome)
    {
      ghost var s, before := World(), trace;
      var o := UpdateRow(row.id, Failed, cause);
      v := if o == DiesAfter then Vanish else Raise;
      a := Answer(o, NeverTried, 0);
      WV.MarkingCall(s, w, a);
      RunSnoc(Step, Init(deliveryId, owner), before, Work(w, a));
      Proceed(w, j, job, v, s, a);
    }

    /** markDeadWithLetter: the status and the letter change together or not at all. */
    method MarkDeadWithLetter(row: Delivery, attempt: nat, cause: Note) returns (o: Outcome, fits: bool, letterId: Symbol)
      modifies this`deliveries, this`letters
      ensures World() == Buried(old(World()), row, attempt, cause, Answer(o, NeverTried, letterId))
      ensures fits == LetterFits(old(letters), row, letterId)
    {
      o, letterId := *, *;
      var known := exists l | l in letters :: letters[l].deliveryId == row.id;
      fits := known || letterId !in letters;
      if o != FailsBefore && fits && row.id in deliveries {
        deliveries := deliveries[row.id := deliveries[row.id].(status := Dead)];
        letters :=
          if known then map l | l in letters ::
                          if letters[l].deliveryId == row.id then letters[l].(attempt := attempt, cause := cause) else letters[l]
          else letters[letterId := Letter(row.id, row.endpointId, row.merchantId, row.eventType, row.payload, attempt, cause)];
      }
    }

    lemma DeadStep(actions: seq<Action>, s: State, w: nat, row: Delivery, cause: Note, a: Answer)
      requires s == Reach(deliveryId, owner, actions) && Busy(s, w) && s.workers[w].pc == MarkDead(row, cause)
      ensures WV.LetterKept(s, Reach(deliveryId, owner, actions + [Work(w, a)]), row,
                         s.jobs[s.workers[w].job].attemptsMade + 1, cause, VerdictOf(s, w, a))
    {
      WT.ReachableIsGood(deliveryId, owner, actions);
      WV.BuryingCall(s, w, row, cause, a);
      RunSnoc(Step, Init(deliveryId, owner), actions, Work(w, a));
    }

    method RecordDead(w: nat, j: JobId, job: Job, row: Delivery, cause: Note) returns (v: Verdict, ghost a: Answer)
      requires Valid() && At(w, j, job, MarkDead(row, cause))
      modifies this
      ensures Valid() && old(trace) + [Work(w, a)] <= trace && j in jobs && WI.JobEvolves(JobAfter(job, v), jobs[j])
      ensures v in {Vanish, Raise, Return(DeadLettered)} && (v == Vanish <==> a.outcome == DiesAfter)
      ensures WV.LetterKept(old(World()), Reach(deliveryId, owner, old(trace) + [Work(w, a)]), row, job.attemptsMade + 1, cause, v)
    {
      ghost var s, before := World(), trace;
      var o, fits, letterId := MarkDeadWithLetter(row, job.attemptsMade + 1, cause);
      v := if o == DiesAfter then Vanish else if o == Succeeds && fits then Return(DeadLettered) else Raise;
      a := Answer(o, NeverTried, letterId);
      DeadStep(before, s, w, row, cause, a);
      assert World() == Written(s, w, a) by { WV.BuryingCallWrites(s, w, row, cause, a); }
      Proceed(w, j, job, v, s, a);
    }

    /** The try block of process. Where it throws, the catch block takes over. */
    method TryToDeliver(w: nat, j: JobId, job: Job, row: Delivery) returns (v: Verdict)
      requires Valid() && At(w, j, job, Post(row))
      modifies this
      ensures Valid() && old(trace) <= trace && j in jobs && WI.JobEvolves(JobAfter(job, v), jobs[j])
      ensures v.GoOn? ==> IsCatch(v.pc, job, row) && At(w, j, job, v.pc)
    {
      v := PostTo(w, j, job, row);
      if v.GoOn? && v.pc.MarkDelivered? {
        v := RecordDelivered(w, j, job, row, v.pc.response);
      }
    }

    /** The catch block of process: the fifth attempt buries the delivery with a letter, and the job
        returns if that worked; any other marks it failed and throws, whether or not that worked. */
    method HandleFailure(w: nat, j: JobId, job: Job, row: Delivery, cause: Note) returns (v: Verdict, ghost a: Answer)
      requires Valid() && At(w, j, job, Catch(job, row, cause))
      modifies this
      ensures Valid() && old(trace) + [Work(w, a)] <= trace && j in jobs && WI.JobEvolves(JobAfter(job, v), jobs[j]) && !v.GoOn?
      ensures v == Vanish <==> a.outcome == DiesAfter
      ensures var next := Reach(deliveryId, owner, old(trace) + [Work(w, a)]);
              if job.attemptsMade + 1 < 5
              then v in {Vanish, Raise} && WV.RowMarked(old(World()), next, row.id, Failed, cause, a.outcome)
              else v in {Vanish, Raise, Return(DeadLettered)} && WV.LetterKept(old(World()), next, row, job.attemptsMade + 1, cause, v)
    {
      if job.attemptsMade >= ATTEMPTS - 1 {
        v, a := RecordDead(w, j, job, row, cause);
      } else {
        v, a := RecordFailed(w, j, job, row, cause);
      }
    }

    /** process, from the moment a worker has taken the job. However it ends, the queue's record of
        the job is, now and later, what its end makes of it; and it never misses its row. */
    method Process(w: nat, j: JobId, job: Job) returns (v: Verdict)
      requires Valid() && At(w, j, job, LoadDelivery)
      modifies this
      ensures Valid() && old(trace) <= trace && !v.GoOn? && v != Return(NotFound)
      ensures j in jobs && WI.JobEvolves(JobAfter(job, v), jobs[j])
    {
      v := FindDelivery(w, j, job);
      if v.GoOn? {
        v := ProcessRow(w, j, job, v.pc.row);
      }
      JobIsOk(j);
    }

    /** The part of process behind the lookup of the delivery. */
    method ProcessRow(w: nat, j: JobId, job: Job, row: Delivery) returns (v: Verdict)
      requires Valid() && At(w, j, job, LoadEndpoint(row))
      modifies this
      ensures Valid() && old(trace) <= trace && !v.GoOn?
      ensures j in jobs && WI.JobEvolves(JobAfter(job, v), jobs[j])
    {
      v := FindEndpoint(w, j, job, row);
      if v.GoOn? && v.pc.MarkInactive? {
        v := Discard(w, j, job, row);
      } else if v.GoOn? {
        v := TryToDeliver(w, j, job, row);
        if v.GoOn? {
          ghost var a;
          v, a := HandleFailure(w, j, job, row, v.pc.cause);
        }
      }
    }

    lemma JobIsOk(j: JobId)
      requires Valid() && j in jobs
      ensures WI.JobOk(jobs[j])
    {
      WT.ReachableIsGood(deliveryId, owner, trace);
      assert WI.JobOk(World().jobs[j]);
    }

    // ---------- manual retry ----------

    /** retryDelivery: a row of the merchant gets a new job. `lookup` and `add` are how its calls end. */
    method RetryDelivery(id: Symbol, merchantId: Symbol, at: int, lookup: Outcome, add: Outcome) returns (r: RetryResult)
      requires Valid()
      modifies this
      ensures Valid() && old(trace) <= trace
      ensures var found := id in old(deliveries) && old(deliveries)[id].merchantId == merchantId;
              && r == (if lookup != Succeeds then RetryFailed else if !found then UnknownDelivery
                       else if add != Succeeds then RetryFailed else Queued)
              && (lookup == Succeeds && found && add.TakesEffect() ==> Manual(id, at) in jobs)
              && (lookup != Succeeds || !found ==> World() == old(World()) && trace == old(trace))
    {
      if lookup != Succeeds {
        return RetryFailed;
      }
      if id !in deliveries || deliveries[id].merchantId != merchantId {
        return UnknownDelivery;
      }
      ghost var row, before := deliveries[id], trace;
      Others(Nobody);
      WT.Onwards(deliveryId, owner, before, trace);
      assert WI.Parcel(deliveries[id]).merchantId == deliveries[id].merchantId && WI.Parcel(row).merchantId == row.merchantId;
      AddManualJob(id, merchantId, at, add);
      return if add == Succeeds then Queued else RetryFailed;
    }

    method AddManualJob(id: Symbol, merchantId: Symbol, at: int, o: Outcome)
      requires Valid() && id in deliveries && deliveries[id].merchantId == merchantId
      modifies this
      ensures Valid() && old(trace) + [Retry(id, merchantId, at, o)] <= trace && (o.TakesEffect() ==> Manual(id, at) in jobs)
    {
      ghost var s := World();
      if o != FailsBefore && Manual(id, at) !in jobs {
        jobs := jobs[Manual(id, at) := Job(Waiting, 0, 0, 0)];
      }
      ghost var done := trace + [Retry(id, merchantId, at, o)];
      assert done[..|trace|] == trace;
      Yield(Nobody, s, Retry(id, merchantId, at, o));
      WT.Onwards(deliveryId, owner, done, trace);
    }
  }
}
