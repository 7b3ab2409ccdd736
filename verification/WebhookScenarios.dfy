/** Two short runs of the webhook service with one endpoint and one event. In the first the event is
    dispatched twice, the second time normally, and yet it is never posted. In the second the endpoint
    has received the event, and the delivery ends as failed. */
module WebhookScenarios {
  import opened GoText
  import opened WebhookProtocol
  import opened Runs

  datatype Scenario = Scenario(
    deliveryId: (Symbol, Symbol) -> Symbol,
    owner: Symbol -> Symbol,
    endpoint: Symbol,
    event: Event)
  {
    /** The endpoint belongs to the event's merchant. */
    predicate Plausible() { owner(endpoint) == event.merchantId != 0 }

    function Id(): Symbol { deliveryId(endpoint, event.id) }

    function JobOf(): JobId { Automatic(Id()) }

    function On(): map<Symbol, Endpoint> { map[endpoint := Endpoint(true, {event.eventType})] }

    function Off(): map<Symbol, Endpoint> { map[endpoint := Endpoint(false, {event.eventType})] }

    function Row(): Delivery { NewDelivery(Id(), endpoint, event) }

    function Start(): State { Init(deliveryId, owner) }

    /** The endpoint, the one row, the one job, and who is at work. */
    function World(
      endpoints: map<Symbol, Endpoint>, row: Delivery, posted: set<Symbol>, job: Job,
      dispatches: map<nat, FanOut>, workers: map<nat, Worker>): State
    {
      State(deliveryId, owner, endpoints, map[Id() := row], map[], posted, map[JobOf() := job], dispatches, workers)
    }

    function Enqueued(pc: EnqueuePc): FanOut { FanOut(event, Enqueuing(map[endpoint := pc])) }

    function Joined(ok: bool): FanOut { FanOut(event, Over(ok, {endpoint})) }

    /** What switching the endpoint off did to the row. */
    function Discarded(): Delivery { Row().(status := Failed, note := EndpointInactive, attemptCount := 1) }

    function Accepted(): Delivery { Row().(status := Delivered, note := NeverTried, attemptCount := 1) }
  }

  const WAITING: Job := Job(Waiting, 0, 0, 0)

  /** A worker's call that ends like this. */
  function Calls(o: Outcome): Action { Work(0, Answer(o, NeverTried, 0)) }

  /** The dispatch selects the one endpoint. */
  lemma Selects(x: Scenario, s: State, d: nat)
    requires x.Plausible() && s.endpoints == x.On() && s.owner == x.owner
    requires d in s.dispatches && s.dispatches[d] == FanOut(x.event, Selecting)
    ensures Step(s, Select(d, Succeeds)) == s.(dispatches := s.dispatches[d := x.Enqueued(ToCreate)])
  {
    var selected := Subscribed(s, x.event);
    assert selected == {x.endpoint};
    assert (map e | e in selected :: ToCreate) == map[x.endpoint := ToCreate];
    assert Step(s, Select(d, Succeeds)).dispatches[d].stage == Enqueuing(map e | e in selected :: ToCreate);
  }

  /** Its enqueue call goes on. */
  lemma CallMoves(x: Scenario, s: State, d: nat, before: EnqueuePc, after: EnqueuePc)
    requires d in s.dispatches && s.dispatches[d] == x.Enqueued(before)
    ensures WithCall(s, d, x.endpoint, after) == s.(dispatches := s.dispatches[d := x.Enqueued(after)])
  {
    assert map[x.endpoint := before][x.endpoint := after] == map[x.endpoint := after];
  }

  lemma Joins(x: Scenario, s: State, d: nat, ok: bool)
    requires d in s.dispatches && s.dispatches[d] == x.Enqueued(EnqueuePc.Settled(ok))
    ensures Step(s, Join(d)) == s.(dispatches := s.dispatches[d := x.Joined(ok)])
  {
    var calls := map[x.endpoint := EnqueuePc.Settled(ok)];
    assert calls.Keys == {x.endpoint} && AllSettled(calls);
    assert calls[x.endpoint] == EnqueuePc.Settled(ok);
  }

  /** The event is received. */
  lemma Receives(x: Scenario) returns (actions: seq<Action>)
    requires x.Plausible()
    ensures Run(Step, x.Start(), actions)
            == x.Start().(endpoints := x.On(), dispatches := map[0 := FanOut(x.event, Selecting)])
  {
    var on, receive := SetEndpoint(x.endpoint, Endpoint(true, {x.event.eventType})), Receive(0, x.event);
    RunSnoc(Step, x.Start(), [], on);
    RunSnoc(Step, x.Start(), [] + [on], receive);
    actions := [] + [on] + [receive];
  }

  /** It is dispatched and its row created. */
  lemma Creates(x: Scenario) returns (actions: seq<Action>)
    requires x.Plausible()
    ensures Run(Step, x.Start(), actions)
            == x.Start().(endpoints := x.On(), deliveries := map[x.Id() := x.Row()], dispatches := map[0 := x.Enqueued(ToAdd)])
  {
    var a := Receives(x);
    var s := Run(Step, x.Start(), a);
    Selects(x, s, 0);
    var s' := Step(s, Select(0, Succeeds));
    CallMoves(x, s'.(deliveries := map[x.Id() := x.Row()]), 0, ToCreate, ToAdd);
    RunSnoc(Step, x.Start(), a, Select(0, Succeeds));
    RunSnoc(Step, x.Start(), a + [Select(0, Succeeds)], Enqueue(0, x.endpoint, Succeeds));
    actions := a + [Select(0, Succeeds)] + [Enqueue(0, x.endpoint, Succeeds)];
  }

  /** The job is added; the dispatch is told of it, or not. */
  lemma Queues(x: Scenario, o: Outcome) returns (actions: seq<Action>)
    requires x.Plausible() && o.TakesEffect()
    ensures Run(Step, x.Start(), actions) == x.World(x.On(), x.Row(), {}, WAITING, map[0 := x.Joined(o == Succeeds)], map[])
  {
    var a := Creates(x);
    var s := Run(Step, x.Start(), a);
    CallMoves(x, s.(jobs := map[x.JobOf() := WAITING]), 0, ToAdd, EnqueuePc.Settled(o == Succeeds));
    RunSnoc(Step, x.Start(), a, Enqueue(0, x.endpoint, o));
    Joins(x, Run(Step, x.Start(), a + [Enqueue(0, x.endpoint, o)]), 0, o == Succeeds);
    RunSnoc(Step, x.Start(), a + [Enqueue(0, x.endpoint, o)], Join(0));
    actions := a + [Enqueue(0, x.endpoint, o)] + [Join(0)];
  }

  // ---------- a delivery that is lost ----------

  /** The endpoint is switched off, and the job gives up. */
  lemma GivesUp(x: Scenario) returns (actions: seq<Action>)
    requires x.Plausible()
    ensures Run(Step, x.Start(), actions)
            == x.World(x.Off(), x.Discarded(), {}, Job(Completed(Result.Discarded), 0, 1, 0), map[0 := x.Joined(false)], map[])
  {
    var a := Queues(x, FailsAfter);
    var off := SetEndpoint(x.endpoint, Endpoint(false, {x.event.eventType}));
    RunSnoc(Step, x.Start(), a, off);
    RunSnoc(Step, x.Start(), a + [off], Take(0, x.JobOf()));
    a := a + [off] + [Take(0, x.JobOf())];
    actions := Discards(x, a);
  }

  lemma Discards(x: Scenario, before: seq<Action>) returns (actions: seq<Action>)
    requires Run(Step, x.Start(), before)
             == x.World(x.Off(), x.Row(), {}, Job(Active(0), 0, 1, 0), map[0 := x.Joined(false)],
                        map[0 := Worker(x.JobOf(), LoadDelivery)])
    ensures Run(Step, x.Start(), actions)
            == x.World(x.Off(), x.Discarded(), {}, Job(Completed(Result.Discarded), 0, 1, 0), map[0 := x.Joined(false)], map[])
  {
    RunSnoc(Step, x.Start(), before, Calls(Succeeds));
    RunSnoc(Step, x.Start(), before + [Calls(Succeeds)], Calls(Succeeds));
    RunSnoc(Step, x.Start(), before + [Calls(Succeeds)] + [Calls(Succeeds)], Calls(Succeeds));
    actions := before + [Calls(Succeeds)] + [Calls(Succeeds)] + [Calls(Succeeds)];
  }

  /** The endpoint is switched on again and the event is delivered by Kafka once more, since the first
      dispatch had failed. The second one returns normally, but the job it asks for is the old one. */
  lemma RedispatchLosesDelivery(x: Scenario) returns (actions: seq<Action>)
    requires x.Plausible()
    ensures Run(Step, x.Start(), actions)
            == x.World(x.On(), x.Discarded(), {}, Job(Completed(Result.Discarded), 0, 1, 0),
                       map[0 := x.Joined(false), 1 := x.Joined(true)], map[])
  {
    var a := GivesUp(x);
    var on, receive := SetEndpoint(x.endpoint, Endpoint(true, {x.event.eventType})), Receive(1, x.event);
    RunSnoc(Step, x.Start(), a, on);
    RunSnoc(Step, x.Start(), a + [on], receive);
    a := a + [on] + [receive];
    Selects(x, Run(Step, x.Start(), a), 1);
    RunSnoc(Step, x.Start(), a, Select(1, Succeeds));
    actions := Redispatches(x, a + [Select(1, Succeeds)]);
  }

  /** The state of the second dispatch while nothing else moves. */
  function Again(x: Scenario, dispatch: FanOut): State {
    x.World(x.On(), x.Discarded(), {}, Job(Completed(Result.Discarded), 0, 1, 0), map[0 := x.Joined(false), 1 := dispatch], map[])
  }

  lemma Redispatches(x: Scenario, before: seq<Action>) returns (actions: seq<Action>)
    requires Run(Step, x.Start(), before) == Again(x, x.Enqueued(ToCreate))
    ensures Run(Step, x.Start(), actions) == Again(x, x.Joined(true))
  {
    var enqueue := Enqueue(1, x.endpoint, Succeeds);
    CallMoves(x, Again(x, x.Enqueued(ToCreate)), 1, ToCreate, ToAdd);
    RunSnoc(Step, x.Start(), before, enqueue);
    assert Step(Again(x, x.Enqueued(ToCreate)), enqueue) == Again(x, x.Enqueued(ToAdd));
    CallMoves(x, Again(x, x.Enqueued(ToAdd)), 1, ToAdd, EnqueuePc.Settled(true));
    RunSnoc(Step, x.Start(), before + [enqueue], enqueue);
    assert Step(Again(x, x.Enqueued(ToAdd)), enqueue) == Again(x, x.Enqueued(EnqueuePc.Settled(true)));
    Joins(x, Again(x, x.Enqueued(EnqueuePc.Settled(true))), 1, true);
    RunSnoc(Step, x.Start(), before + [enqueue] + [enqueue], Join(1));
    actions := before + [enqueue] + [enqueue] + [Join(1)];
  }

  // ---------- a delivered row that does not stay delivered ----------

  /** The endpoint accepts the post, and the worker is about to say so. */
  lemma Posts(x: Scenario) returns (actions: seq<Action>)
    requires x.Plausible()
    ensures Run(Step, x.Start(), actions)
            == x.World(x.On(), x.Row(), {x.Id()}, Job(Active(0), 0, 1, 0), map[0 := x.Joined(true)],
                       map[0 := Worker(x.JobOf(), MarkDelivered(x.Row(), NeverTried))])
  {
    var a := Queues(x, Succeeds);
    RunSnoc(Step, x.Start(), a, Take(0, x.JobOf()));
    actions := Reads(x, a + [Take(0, x.JobOf())]);
    RunSnoc(Step, x.Start(), actions, Calls(Succeeds));
    actions := actions + [Calls(Succeeds)];
  }

  lemma Reads(x: Scenario, before: seq<Action>) returns (actions: seq<Action>)
    requires Run(Step, x.Start(), before)
             == x.World(x.On(), x.Row(), {}, Job(Active(0), 0, 1, 0), map[0 := x.Joined(true)],
                        map[0 := Worker(x.JobOf(), LoadDelivery)])
    ensures Run(Step, x.Start(), actions)
            == x.World(x.On(), x.Row(), {}, Job(Active(0), 0, 1, 0), map[0 := x.Joined(true)],
                       map[0 := Worker(x.JobOf(), Post(x.Row()))])
  {
    RunSnoc(Step, x.Start(), before, Calls(Succeeds));
    RunSnoc(Step, x.Start(), before + [Calls(Succeeds)], Calls(Succeeds));
    actions := before + [Calls(Succeeds)] + [Calls(Succeeds)];
  }

  /** The row is marked delivered, but the answer of that write is lost, or the worker dies over it. */
  lemma LosesTheAnswer(x: Scenario, o: Outcome) returns (actions: seq<Action>)
    requires x.Plausible() && o in {FailsAfter, DiesAfter}
    ensures var s := Run(Step, x.Start(), actions);
            && s.deliveries == map[x.Id() := x.Accepted()] && s.posted == {x.Id()}
            && x.JobOf() in s.jobs && !s.jobs[x.JobOf()].Finished()
  {
    var a := Posts(x);
    RunSnoc(Step, x.Start(), a, Calls(o));
    actions := a + [Calls(o)];
  }
}
