/** Recovery runs that succeed: whatever is settled and not flagged, completed or failed, is announced and
    flagged by one; and with it every ordinary request that the bank declines. */
module RecoveryRuns {
  import opened GoText
  import opened PaymentDomain
  import opened PaymentProtocol
  import opened PaymentInvariant
  import opened Runs
  import opened Sums
  import PT = PaymentTheorems
  import R = RepublishedPayment

  /** The elements of a set in some order. */
  lemma {:induction false} Listing(ids: set<Symbol>) returns (order: seq<Symbol>)
    ensures forall id :: id in order <==> id in ids
    ensures forall i, j :: 0 <= i < j < |order| ==> order[i] != order[j]
  {
    if ids == {} {
      order := [];
    } else {
      var id := AnElement(ids);
      var rest := Listing(ids - {id});
      order := [id] + rest;
    }
  }

  lemma ScanWithHead(payments: map<Symbol, Payment>, id: Symbol) returns (order: seq<Symbol>)
    requires id in payments && Unpublished(payments[id])
    ensures order != [] && order[0] == id && IsUnpublishedScan(payments, order)
  {
    var found := set x | x in payments && Unpublished(payments[x]);
    var rest := Listing(found - {id});
    forall x | x in rest ensures x in payments && Unpublished(payments[x]) && x != id { assert x in found - {id}; }
    order := [id] + rest;
  }

  /** The last event of the log announces this row, under this id and with the row's outcome. */
  predicate Announced(log: seq<Event>, id: Symbol, p: Payment) {
    && log != []
    && var e := log[|log| - 1];
       && e.id == id && e.paymentId == p.id && e.merchantId == p.merchantId && e.amount == p.amount && e.status == p.status
       && (p.status == Failed ==> e.eventType == PaymentFailed && e.failedReason == p.failedReason)
       && (p.status == Completed ==> e.eventType == PaymentSucceeded && e.bankReference == p.bankReference)
  }

  function Published(event: Symbol): Answer { Answer(Succeeds, Unreachable, event, 1) }

  lemma FlaggingEnds(s: State, r: nat, p: Payment, event: Symbol)
    requires r in s.recoveries && s.recoveries[r].queue != [] && s.recoveries[r].queue[0] == p && s.recoveries[r].marking
    requires p.id in s.db.payments && Announced(s.db.kafka, event, p)
    ensures var s' := Run(Step, s, [Recover(r, Published(event))] + []);
            s'.db.payments == s.db.payments[p.id := s.db.payments[p.id].(eventPublished := true)] && s'.db.kafka == s.db.kafka
  {
    RunCons(Step, s, Recover(r, Published(event)), []);
  }

  lemma LastIsAnnounced(log: seq<Event>, p: Payment, event: Symbol)
    ensures Announced(Appended(log, p, Published(event)), event, p)
    ensures |Appended(log, p, Published(event))| == |log| + 1 && log <= Appended(log, p, Published(event))
  {
    assert Appended(log, p, Published(event))[|log|] == EventFor(event, p);
  }

  lemma PublishingEnds(s: State, r: nat, p: Payment, event: Symbol)
    requires r in s.recoveries && s.recoveries[r].queue != [] && s.recoveries[r].queue[0] == p && !s.recoveries[r].marking
    requires p.id in s.db.payments && Fresh(s.db, event)
    ensures var s' := Run(Step, s, [Recover(r, Published(event))] + ([Recover(r, Published(event))] + []));
            && s'.db.payments == s.db.payments[p.id := s.db.payments[p.id].(eventPublished := true)]
            && |s'.db.kafka| == |s.db.kafka| + 1 && s.db.kafka <= s'.db.kafka && Announced(s'.db.kafka, event, p)
  {
    LastIsAnnounced(s.db.kafka, p, event);
    FlaggingEnds(Step(s, Recover(r, Published(event))), r, p, event);
    RunCons(Step, s, Recover(r, Published(event)), [Recover(r, Published(event))] + []);
  }

  lemma ScanningEnds(s: State, id: Symbol, event: Symbol) returns (actions: seq<Action>)
    requires id in s.db.payments && s.db.payments[id].id == id && Fresh(s.db, event)
    requires !s.db.payments[id].eventPublished && (s.db.payments[id].status == Completed || s.db.payments[id].status == Failed)
    ensures forall i :: 0 <= i < |actions| ==> actions[i].Scan? || actions[i].Recover?
    ensures var p, s' := s.db.payments[id], Run(Step, s, actions);
            && s'.db.payments == s.db.payments[id := p.(eventPublished := true)]
            && |s'.db.kafka| == |s.db.kafka| + 1 && s.db.kafka <= s'.db.kafka && Announced(s'.db.kafka, event, p)
  {
    var r := AboveAll(s.recoveries.Keys);
    var order := ScanWithHead(s.db.payments, id);
    var s' := Step(s, Scan(r, order));
    assert s' == s.(recoveries := s.recoveries[r := Recovery(Rows(s.db.payments, order), false)]);
    PublishingEnds(s', r, s.db.payments[id], event);
    var rest := [Recover(r, Published(event))] + ([Recover(r, Published(event))] + []);
    RunCons(Step, s, Scan(r, order), rest);
    actions := [Scan(r, order)] + rest;
  }

  /** In every reachable state a recovery run can announce and flag any row that is settled and not
      flagged: one event more in the log, which is that of the row's outcome. */
  lemma SettledCanBeAnnounced(
    cacheKey: (Symbol, Symbol) -> Symbol, lockKey: Symbol -> Symbol, before: seq<Action>, id: Symbol, event: Symbol)
    returns (after: seq<Action>)
    requires var d := Reach(cacheKey, lockKey, before).db;
             && id in d.payments && !d.payments[id].eventPublished && Fresh(d, event)
             && (d.payments[id].status == Completed || d.payments[id].status == Failed)
    ensures forall i :: 0 <= i < |after| ==> after[i].Scan? || after[i].Recover?
    ensures var d, d' := Reach(cacheKey, lockKey, before).db, Reach(cacheKey, lockKey, before + after).db;
            && d'.payments == d.payments[id := d.payments[id].(eventPublished := true)]
            && |d'.kafka| == |d.kafka| + 1 && d.kafka <= d'.kafka && Announced(d'.kafka, event, d.payments[id])
  {
    PT.ReachableIsGood(cacheKey, lockKey, before);
    assert RowOk(Reach(cacheKey, lockKey, before).db, id);
    after := ScanningEnds(Reach(cacheKey, lockKey, before), id, event);
    RunConcat(Step, Init(cacheKey, lockKey), before, after);
  }

  // ---------- a declined request ----------

  /** The payment as the bank declined it. */
  function DeclinedRow(x: R.Scenario, message: Symbol): Payment {
    x.Asked().(status := Failed, failedReason := BankMessage(message))
  }

  lemma Declines(x: R.Scenario, message: Symbol, before: seq<Action>) returns (actions: seq<Action>)
    requires x.Plausible() && Run(Step, x.Start(), before) == x.Alone(x.Claimed(), x.Locked(), x.Asked(), CallBank)
    ensures var s := Run(Step, x.Start(), actions);
            && s.db.payments == map[x.id := DeclinedRow(x, message)] && s.db.kafka == [] && s.db.used == {x.id, x.reference}
            && 0 in s.threads && s.threads[0].pc == StoreResult(Declined(message))
  {
    var charge := Call(0, Answer(Succeeds, Declined(message), 0, 1));
    RunSnoc(Step, x.Start(), before, charge);
    RunSnoc(Step, x.Start(), before + [charge], R.Ok());
    RunSnoc(Step, x.Start(), before + [charge] + [R.Ok()], R.Ok());
    actions := before + [charge] + [R.Ok()] + [R.Ok()];
  }

  lemma IsToldSo(x: R.Scenario, message: Symbol, before: seq<Action>) returns (actions: seq<Action>)
    requires var s := Run(Step, x.Start(), before);
             && s.db.payments == map[x.id := DeclinedRow(x, message)] && s.db.kafka == [] && s.db.used == {x.id, x.reference}
             && 0 in s.threads && s.threads[0].pc == StoreResult(Declined(message))
    ensures var s := Run(Step, x.Start(), actions);
            && s.db.payments == map[x.id := DeclinedRow(x, message)] && s.db.kafka == [] && s.db.used == {x.id, x.reference}
            && 0 in s.threads && s.threads[0].pc == Finished(Errored(PaymentDeclined(message)))
  {
    RunSnoc(Step, x.Start(), before, R.Ok());
    actions := before + [R.Ok()];
  }

  /** For every ordinary request and every message there is a run in which the bank declines it with this
      message, the request is told so and nothing is announced, and then a recovery run announces that
      the payment failed, and flags the row. */
  lemma DeclinedIsAnnounced(x: R.Scenario, message: Symbol) returns (before: seq<Action>, after: seq<Action>)
    requires x.Plausible()
    ensures var s, s' := Reach(x.cacheKey, x.lockKey, before), Reach(x.cacheKey, x.lockKey, before + after);
            && 0 in s.threads && s.threads[0].pc == Finished(Errored(PaymentDeclined(message))) && s.db.kafka == []
            && s'.db.payments == map[x.id := DeclinedRow(x, message).(eventPublished := true)]
            && |s'.db.kafka| == 1 && s'.db.kafka[0].eventType == PaymentFailed && s'.db.kafka[0].paymentId == x.id
            && s'.db.kafka[0].failedReason == BankMessage(message)
    ensures forall i :: 0 <= i < |after| ==> after[i].Scan? || after[i].Recover?
  {
    before := R.Asks(x);
    before := R.Locks(x, before);
    before := R.Claims(x, before);
    before := Declines(x, message, before);
    before := IsToldSo(x, message, before);
    after := SettledCanBeAnnounced(x.cacheKey, x.lockKey, before, x.id, x.firstEvent);
  }
}
