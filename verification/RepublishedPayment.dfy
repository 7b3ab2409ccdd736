/** A run of the payment service in which one payment is announced under two event ids: the request's
    publish reaches the log but reports an error, so the row stays unflagged, and the recovery job
    publishes it again. */
module RepublishedPayment {
  import opened GoText
  import opened PaymentDomain
  import opened PaymentProtocol
  import opened Runs

  datatype Scenario = Scenario(
    cacheKey: (Symbol, Symbol) -> Symbol,
    lockKey: Symbol -> Symbol,
    input: Input,
    id: Symbol,
    reference: Symbol,
    bankReference: Symbol,
    firstEvent: Symbol,
    secondEvent: Symbol)
  {
    function Key(): Symbol { cacheKey(input.merchantId, input.idempotencyKey) }

    function Asked(): Payment { NewPayment(input, id, reference) }

    function Approved(): Payment { Asked().(status := Completed, bankReference := bankReference) }

    /** An ordinary request and four different ULIDs; the lock has a key of its own. */
    predicate Plausible() {
      && Accepted(input) && lockKey(Key()) != Key()
      && IsUlid(Chars(id)) && IsUlid(Chars(reference)) && IsUlid(Chars(firstEvent)) && IsUlid(Chars(secondEvent))
      && id != reference && firstEvent !in {id, reference} && secondEvent !in {id, reference, firstEvent}
    }

    function Start(): State { Init(cacheKey, lockKey) }

    function Fresh(): Db { Db(cacheKey, lockKey, {id, reference}, map[], map[], [], []) }

    /** The only request there is stands at pc. */
    function Alone(d: Db, redis: map<Symbol, RedisValue>, p: Payment, pc: Pc): State {
      State(d, redis, map[0 := Thread(p, pc)], map[])
    }

    function Locked(): map<Symbol, RedisValue> { map[lockKey(Key()) := LockHeld] }

    function Claimed(): Db {
      Fresh().(payments := map[id := Asked()], records := map[Key() := Asked()])
    }

    function Banked(): Db {
      Claimed().(bank := [BankCall(id, BankReply.Approved(bankReference))], payments := map[id := Approved()],
                 records := map[Key() := Approved()])
    }

    function Announced(events: seq<Event>, ids: set<Symbol>): Db {
      Banked().(used := {id, reference} + ids, kafka := events)
    }

    function Reply(): BankReply { BankReply.Approved(bankReference) }
  }

  function Ok(): Action { Call(0, Answer(Succeeds, Unreachable, 0, 1)) }

  lemma Asks(x: Scenario) returns (actions: seq<Action>)
    requires x.Plausible()
    ensures Run(Step, x.Start(), actions) == x.Alone(x.Fresh(), map[], x.Asked(), TryLock)
  {
    var arrive := Arrive(0, x.input, x.id, x.reference);
    RunSnoc(Step, x.Start(), [], arrive);
    RunSnoc(Step, x.Start(), [] + [arrive], Ok());
    RunSnoc(Step, x.Start(), [] + [arrive] + [Ok()], Ok());
    actions := [] + [arrive] + [Ok()] + [Ok()];
  }

  lemma Locks(x: Scenario, before: seq<Action>) returns (actions: seq<Action>)
    requires x.Plausible() && Run(Step, x.Start(), before) == x.Alone(x.Fresh(), map[], x.Asked(), TryLock)
    ensures Run(Step, x.Start(), actions) == x.Alone(x.Fresh(), x.Locked(), x.Asked(), InsertPayment)
  {
    RunSnoc(Step, x.Start(), before, Ok());
    RunSnoc(Step, x.Start(), before + [Ok()], Ok());
    RunSnoc(Step, x.Start(), before + [Ok()] + [Ok()], Ok());
    actions := before + [Ok()] + [Ok()] + [Ok()];
  }

  lemma Claims(x: Scenario, before: seq<Action>) returns (actions: seq<Action>)
    requires x.Plausible() && Run(Step, x.Start(), before) == x.Alone(x.Fresh(), x.Locked(), x.Asked(), InsertPayment)
    ensures Run(Step, x.Start(), actions) == x.Alone(x.Claimed(), x.Locked(), x.Asked(), CallBank)
  {
    RunSnoc(Step, x.Start(), before, Ok());
    RunSnoc(Step, x.Start(), before + [Ok()], Ok());
    actions := before + [Ok()] + [Ok()];
  }

  lemma Charges(x: Scenario, before: seq<Action>) returns (actions: seq<Action>)
    requires x.Plausible() && Run(Step, x.Start(), before) == x.Alone(x.Claimed(), x.Locked(), x.Asked(), CallBank)
    ensures Run(Step, x.Start(), actions)
            == x.Alone(x.Banked().(records := x.Claimed().records), x.Locked(), x.Approved(), UpdateRecord(x.Reply()))
  {
    var charge := Call(0, Answer(Succeeds, x.Reply(), 0, 1));
    RunSnoc(Step, x.Start(), before, charge);
    RunSnoc(Step, x.Start(), before + [charge], Ok());
    actions := before + [charge] + [Ok()];
  }

  lemma Records(x: Scenario, before: seq<Action>) returns (actions: seq<Action>)
    requires x.Plausible()
    requires Run(Step, x.Start(), before)
             == x.Alone(x.Banked().(records := x.Claimed().records), x.Locked(), x.Approved(), UpdateRecord(x.Reply()))
    ensures Run(Step, x.Start(), actions) == x.Alone(x.Banked(), x.Locked(), x.Approved(), StoreResult(x.Reply()))
  {
    RunSnoc(Step, x.Start(), before, Ok());
    actions := before + [Ok()];
  }

  lemma Caches(x: Scenario, before: seq<Action>) returns (actions: seq<Action>)
    requires x.Plausible()
    requires Run(Step, x.Start(), before) == x.Alone(x.Banked(), x.Locked(), x.Approved(), StoreResult(x.Reply()))
    ensures Run(Step, x.Start(), actions)
            == x.Alone(x.Banked(), x.Locked()[x.Key() := Cached(x.Approved())], x.Approved(), Publish)
  {
    RunSnoc(Step, x.Start(), before, Ok());
    actions := before + [Ok()];
  }

  /** The request's publish reaches the log, but its answer does not come back. */
  lemma LosesAnswer(x: Scenario, before: seq<Action>) returns (actions: seq<Action>)
    requires x.Plausible()
    requires Run(Step, x.Start(), before)
             == x.Alone(x.Banked(), x.Locked()[x.Key() := Cached(x.Approved())], x.Approved(), Publish)
    ensures var s := Run(Step, x.Start(), actions);
            && s.db == x.Announced([EventFor(x.firstEvent, x.Approved())], {x.firstEvent}) && s.recoveries == map[]
            && 0 in s.threads && s.threads[0].pc == Finished(Returned(x.Approved()))
  {
    var publish := Call(0, Answer(FailsAfter, Unreachable, x.firstEvent, 1));
    RunSnoc(Step, x.Start(), before, publish);
    actions := before + [publish];
    assert [] + Copies(EventFor(x.firstEvent, x.Approved()), 1) == [EventFor(x.firstEvent, x.Approved())];
  }

  /** The recovery job finds the row unflagged. */
  lemma Scans(x: Scenario, before: seq<Action>) returns (actions: seq<Action>)
    requires x.Plausible()
    requires var s := Run(Step, x.Start(), before);
             s.db == x.Announced([EventFor(x.firstEvent, x.Approved())], {x.firstEvent}) && s.recoveries == map[]
    ensures var s := Run(Step, x.Start(), actions);
            && s.db == x.Announced([EventFor(x.firstEvent, x.Approved())], {x.firstEvent})
            && 0 in s.recoveries && s.recoveries[0] == Recovery([x.Approved()], false)
  {
    RunSnoc(Step, x.Start(), before, Scan(0, [x.id]));
    assert Rows(Run(Step, x.Start(), before).db.payments, [x.id]) == [x.Approved()];
    actions := before + [Scan(0, [x.id])];
  }

  lemma TwoEvents(one: Event, other: Event)
    ensures [one] + Copies(other, 1) == [one, other]
  {
  }

  /** It publishes the row under a new id. */
  lemma Republishes(x: Scenario, before: seq<Action>) returns (actions: seq<Action>)
    requires x.Plausible()
    requires var s := Run(Step, x.Start(), before);
             && s.db == x.Announced([EventFor(x.firstEvent, x.Approved())], {x.firstEvent})
             && 0 in s.recoveries && s.recoveries[0] == Recovery([x.Approved()], false)
    ensures Run(Step, x.Start(), actions).db
            == x.Announced([EventFor(x.firstEvent, x.Approved()), EventFor(x.secondEvent, x.Approved())], {x.firstEvent, x.secondEvent})
  {
    var recover := Recover(0, Answer(Succeeds, Unreachable, x.secondEvent, 1));
    RunSnoc(Step, x.Start(), before, recover);
    actions := before + [recover];
    TwoEvents(EventFor(x.firstEvent, x.Approved()), EventFor(x.secondEvent, x.Approved()));
  }

  /** Two events with different ids announce that the one payment succeeded. */
  lemma CanBeAnnouncedTwice(x: Scenario) returns (actions: seq<Action>)
    requires x.Plausible()
    ensures var d := Reach(x.cacheKey, x.lockKey, actions).db;
            && d.payments == map[x.id := x.Approved()]
            && d.kafka == [EventFor(x.firstEvent, x.Approved()), EventFor(x.secondEvent, x.Approved())]
  {
    actions := Asks(x);
    actions := Locks(x, actions);
    actions := Claims(x, actions);
    actions := Charges(x, actions);
    actions := Records(x, actions);
    actions := Caches(x, actions);
    actions := LosesAnswer(x, actions);
    actions := Scans(x, actions);
    actions := Republishes(x, actions);
  }
}
